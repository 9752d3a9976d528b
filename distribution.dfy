/** The RPC-status distribution check of `assertRpcStatusCode`: two
    snapshots of the test client's accumulated per-method, per-status RPC
    counters are taken a sampling window apart, and for every expected result
    the share of RPCs of that method that ended with that status must lie
    within a tolerance of the expected ratio. */
module Distribution {

  /** gRPC status codes; `Value` is the number `StatusCode.X.value[0]`. */
  datatype StatusCode =
    | Ok | Cancelled | Unknown | InvalidArgument | DeadlineExceeded | NotFound
    | AlreadyExists | PermissionDenied | ResourceExhausted | FailedPrecondition
    | Aborted | OutOfRange | Unimplemented | Internal | Unavailable | DataLoss
    | Unauthenticated

  function Value(c: StatusCode): (n: nat)
    ensures n <= 16
  {
    match c
    case Ok => 0
    case Cancelled => 1
    case Unknown => 2
    case InvalidArgument => 3
    case DeadlineExceeded => 4
    case NotFound => 5
    case AlreadyExists => 6
    case PermissionDenied => 7
    case ResourceExhausted => 8
    case FailedPrecondition => 9
    case Aborted => 10
    case OutOfRange => 11
    case Unimplemented => 12
    case Internal => 13
    case Unavailable => 14
    case DataLoss => 15
    case Unauthenticated => 16
  }

  /** One expected outcome: RPCs of `rpcType` end with `statusCode` in the
      proportion `ratio`. */
  datatype ExpectedResult = ExpectedResult(rpcType: string, statusCode: StatusCode, ratio: real)

  /** Stands for `grpc_testing.RPC_TYPE_UNARY_CALL`, the default method key.
      Its value is defined outside this model; the model treats it as an
      opaque method name, and no proof depends on the string. */
  const UnaryCall: string := "UnaryCall"

  /** `ExpectedResult()` with every field left at its default: unary calls
      all end with status OK. */
  function DefaultExpected(): ExpectedResult {
    ExpectedResult(UnaryCall, Ok, 1.0)
  }

  /** `(rpc type, status value)` to accumulated count.  A key that is absent
      reads as 0, as the protobuf maps of the stats response do. */
  type Key = (string, int)
  type Snapshot = map<Key, nat>

  function CountAt(s: Snapshot, k: Key): nat {
    if k in s then s[k] else 0
  }

  function Count(s: Snapshot, rpc: string, status: int): nat {
    CountAt(s, (rpc, status))
  }

  /** Sum of the counts at a finite set of keys. */
  ghost function SumOver(s: Snapshot, keys: set<Key>): nat
    decreases keys
  {
    if keys == {} then 0
    else
      var k :| k in keys;
      CountAt(s, k) + SumOver(s, keys - {k})
  }

  /** The sum does not depend on the order the keys are taken in. */
  lemma {:induction false} SumOverRemove(s: Snapshot, keys: set<Key>, k: Key)
    requires k in keys
    ensures SumOver(s, keys) == CountAt(s, k) + SumOver(s, keys - {k})
    decreases keys
  {
    var j :| j in keys && SumOver(s, keys) == CountAt(s, j) + SumOver(s, keys - {j});
    if j != k {
      SumOverRemove(s, keys - {j}, k);
      SumOverRemove(s, keys - {k}, j);
      assert keys - {j} - {k} == keys - {k} - {j};
    }
  }

  /** The keys of one method in a snapshot. */
  function MethodKeys(s: Snapshot, rpc: string): set<Key> {
    set k | k in s.Keys && k.0 == rpc
  }

  /** `sum(stats_per_method[rpc].result.values())`: all RPCs of one method,
      whatever their status. */
  ghost function Total(s: Snapshot, rpc: string): nat {
    SumOver(s, MethodKeys(s, rpc))
  }

  /** Observed RPCs of `rpc` with `status` during the window. */
  ghost function Seen(before: Snapshot, after: Snapshot, rpc: string, status: int): int {
    Count(after, rpc, status) - Count(before, rpc, status)
  }

  /** RPCs of `rpc` started during the window. */
  ghost function TotalDelta(before: Snapshot, after: Snapshot, rpc: string): int {
    Total(after, rpc) - Total(before, rpc)
  }

  function Abs(x: real): real {
    if x < 0.0 then -x else x
  }

  /** `abs(seen - total * ratio) / total`. */
  function DiffRatio(seen: int, total: int, ratio: real): real
    requires total != 0
  {
    Abs(seen as real - total as real * ratio) / total as real
  }

  ghost predicate ItemPasses(before: Snapshot, after: Snapshot, e: ExpectedResult, tolerance: real) {
    var total := TotalDelta(before, after, e.rpcType);
    total != 0 && DiffRatio(Seen(before, after, e.rpcType, Value(e.statusCode)), total, e.ratio) <= tolerance
  }

  /** How the assertion ends: all items pass, an item divides by a zero
      total (Python's ZeroDivisionError), or an item is out of tolerance
      (the AssertionError, with the numbers its message reports). */
  datatype Verdict =
    | Passed
    | ZeroTotal(index: nat)
    | ToleranceExceeded(index: nat, seen: int, want: real, total: int, diffRatio: real)

  /** The sum of one method's counters, as the generator expression in the
      source computes it. */
  method SumMethod(s: Snapshot, rpc: string) returns (t: nat)
    ensures t == Total(s, rpc)
  {
    t := 0;
    var rest := MethodKeys(s, rpc);
    while rest != {}
      invariant rest <= s.Keys
      invariant t + SumOver(s, rest) == Total(s, rpc)
      decreases rest
    {
      var k :| k in rest;
      SumOverRemove(s, rest, k);
      t := t + s[k];
      rest := rest - {k};
    }
  }

  /** The two numbers one item is judged by: the status count and the
      method total gained between the snapshots. */
  method Observe(before: Snapshot, after: Snapshot, rpc: string, status: int) returns (seen: int, total: int)
    ensures seen == Seen(before, after, rpc, status)
    ensures total == TotalDelta(before, after, rpc)
  {
    seen := Count(after, rpc, status) as int - Count(before, rpc, status) as int;
    var totalAfter := SumMethod(after, rpc);
    var totalBefore := SumMethod(before, rpc);
    total := totalAfter as int - totalBefore as int;
  }

  /** `assertRpcStatusCode` after both snapshots are taken: the items are
      checked in order and the first one that fails ends the check. */
  method AssertRpcStatusCode(before: Snapshot, after: Snapshot, expected: seq<ExpectedResult>, tolerance: real)
    returns (v: Verdict)
    ensures v.Passed? <==> forall i :: 0 <= i < |expected| ==> ItemPasses(before, after, expected[i], tolerance)
    ensures v.ZeroTotal? ==>
      v.index < |expected| &&
      (forall i :: 0 <= i < v.index ==> ItemPasses(before, after, expected[i], tolerance)) &&
      TotalDelta(before, after, expected[v.index].rpcType) == 0
    ensures v.ToleranceExceeded? ==>
      v.index < |expected| &&
      (forall i :: 0 <= i < v.index ==> ItemPasses(before, after, expected[i], tolerance)) &&
      var e := expected[v.index];
      v.total == TotalDelta(before, after, e.rpcType) && v.total != 0 &&
      v.seen == Seen(before, after, e.rpcType, Value(e.statusCode)) &&
      v.want == v.total as real * e.ratio &&
      v.diffRatio == DiffRatio(v.seen, v.total, e.ratio) &&
      v.diffRatio > tolerance
  {
    var i := 0;
    while i < |expected|
      invariant 0 <= i <= |expected|
      invariant forall j :: 0 <= j < i ==> ItemPasses(before, after, expected[j], tolerance)
    {
      var e := expected[i];
      var seen, total := Observe(before, after, e.rpcType, Value(e.statusCode));
      if total == 0 {
        return ZeroTotal(i);
      }
      var want := total as real * e.ratio;
      var diffRatio := DiffRatio(seen, total, e.ratio);
      assert ItemPasses(before, after, e, tolerance) <==> diffRatio <= tolerance;
      if !(diffRatio <= tolerance) {
        return ToleranceExceeded(i, seen, want, total, diffRatio);
      }
      i := i + 1;
    }
    return Passed;
  }

  /** A consistent client: counters never go down and never disappear. */
  ghost predicate Monotone(before: Snapshot, after: Snapshot) {
    forall k :: k in before ==> k in after && before[k] <= after[k]
  }

  /** Keys whose count is 0 do not change a sum. */
  lemma {:induction false} SumOverZeros(s: Snapshot, keys: set<Key>, zeros: set<Key>)
    requires forall z :: z in zeros ==> CountAt(s, z) == 0
    ensures SumOver(s, keys + zeros) == SumOver(s, keys)
    decreases zeros
  {
    if zeros == {} {
      assert keys + zeros == keys;
    } else {
      var z :| z in zeros;
      SumOverZeros(s, keys, zeros - {z});
      if z in keys {
        assert keys + zeros == keys + (zeros - {z});
      } else {
        SumOverRemove(s, keys + zeros, z);
        assert keys + zeros - {z} == keys + (zeros - {z});
      }
    }
  }

  /** Summing pointwise larger counts gives a larger sum, and the gap is at
      least the gap at any one key. */
  lemma {:induction false} SumOverGrows(before: Snapshot, after: Snapshot, keys: set<Key>, k: Key)
    requires forall j :: j in keys ==> CountAt(before, j) <= CountAt(after, j)
    ensures SumOver(before, keys) <= SumOver(after, keys)
    ensures k in keys ==>
      CountAt(after, k) - CountAt(before, k) <= SumOver(after, keys) - SumOver(before, keys)
    decreases keys
  {
    if keys != {} {
      var j := if k in keys then k else var x :| x in keys; x;
      SumOverRemove(before, keys, j);
      SumOverRemove(after, keys, j);
      SumOverGrows(before, after, keys - {j}, k);
    }
  }

  /** Totals of one method summed over a common key set. */
  lemma TotalsOverCommonKeys(before: Snapshot, after: Snapshot, rpc: string)
    requires Monotone(before, after)
    ensures Total(after, rpc) == SumOver(after, MethodKeys(after, rpc))
    ensures Total(before, rpc) == SumOver(before, MethodKeys(after, rpc))
  {
    var ka, kb := MethodKeys(after, rpc), MethodKeys(before, rpc);
    var zeros := ka - kb;
    forall z | z in zeros ensures CountAt(before, z) == 0 {
      assert z !in before;
    }
    SumOverZeros(before, kb, zeros);
    assert kb + zeros == ka;
  }

  /** For a consistent client the status count observed during the window
      lies between 0 and the method's total, so `seen <= total` holds for
      every item. */
  lemma SeenWithinTotal(before: Snapshot, after: Snapshot, rpc: string, status: int)
    requires Monotone(before, after)
    ensures 0 <= Seen(before, after, rpc, status) <= TotalDelta(before, after, rpc)
  {
    var ka := MethodKeys(after, rpc);
    TotalsOverCommonKeys(before, after, rpc);
    forall j | j in ka ensures CountAt(before, j) <= CountAt(after, j) {
    }
    SumOverGrows(before, after, ka, (rpc, status));
    if (rpc, status) !in after {
      assert (rpc, status) !in before;
    }
  }

  /** The check divided out: with a positive total, an item passes exactly
      when the distance between the observed and the wanted count is at
      most `tolerance` times the total. */
  lemma PassesIffWithinScaledTolerance(seen: int, total: int, ratio: real, tolerance: real)
    requires total > 0
    ensures DiffRatio(seen, total, ratio) <= tolerance <==>
      Abs(seen as real - total as real * ratio) <= tolerance * total as real
  {
    var d := Abs(seen as real - total as real * ratio);
    var t := total as real;
    assert DiffRatio(seen, total, ratio) * t == d;
    if d / t <= tolerance {
      assert d == (d / t) * t <= tolerance * t;
    } else {
      assert d == (d / t) * t > tolerance * t;
    }
  }

  /** The default expectation holds within `tolerance` exactly when the
      unary calls that did not end OK during the window are at most
      `tolerance` times all unary calls of the window. */
  lemma DefaultExpectedPasses(before: Snapshot, after: Snapshot, tolerance: real)
    requires Monotone(before, after)
    requires TotalDelta(before, after, UnaryCall) > 0
    ensures var total := TotalDelta(before, after, UnaryCall);
      ItemPasses(before, after, DefaultExpected(), tolerance) <==>
      (total - Seen(before, after, UnaryCall, Value(Ok))) as real <= tolerance * total as real
  {
    var total := TotalDelta(before, after, UnaryCall);
    var seen := Seen(before, after, UnaryCall, Value(Ok));
    SeenWithinTotal(before, after, UnaryCall, Value(Ok));
    PassesIffWithinScaledTolerance(seen, total, 1.0, tolerance);
    assert Abs(seen as real - total as real * 1.0) == (total - seen) as real;
  }

  lemma MulNonNegative(a: real, b: real)
    requires a >= 0.0 && b >= 0.0
    ensures a * b >= 0.0
  {
  }

  lemma DistanceWithinTotal(seen: int, total: int, ratio: real)
    requires 0 <= seen <= total
    requires 0.0 <= ratio <= 1.0
    ensures Abs(seen as real - total as real * ratio) <= total as real
  {
    var t := total as real;
    MulNonNegative(t, ratio);
    MulNonNegative(t, 1.0 - ratio);
    assert t - t * ratio == t * (1.0 - ratio);
  }

  /** For a consistent client and an expected ratio in [0, 1], the reported
      difference ratio is in [0, 1], so any tolerance of 1 or more passes. */
  lemma DiffRatioAtMostOne(before: Snapshot, after: Snapshot, e: ExpectedResult)
    requires Monotone(before, after)
    requires 0.0 <= e.ratio <= 1.0
    requires TotalDelta(before, after, e.rpcType) != 0
    ensures var total := TotalDelta(before, after, e.rpcType);
      0.0 <= DiffRatio(Seen(before, after, e.rpcType, Value(e.statusCode)), total, e.ratio) <= 1.0
  {
    var total := TotalDelta(before, after, e.rpcType);
    var seen := Seen(before, after, e.rpcType, Value(e.statusCode));
    SeenWithinTotal(before, after, e.rpcType, Value(e.statusCode));
    DistanceWithinTotal(seen, total, e.ratio);
    PassesIffWithinScaledTolerance(seen, total, e.ratio, 1.0);
    assert DiffRatio(seen, total, e.ratio) >= 0.0 by {
      var d := Abs(seen as real - total as real * e.ratio);
      assert d >= 0.0 && total as real > 0.0;
    }
  }

  /** With a negative total, which only a client whose counters went down can
      report, the quotient is never positive, so the item passes for every
      non-negative tolerance. */
  lemma NegativeTotalPasses(seen: int, total: int, ratio: real, tolerance: real)
    requires total < 0 && tolerance >= 0.0
    ensures DiffRatio(seen, total, ratio) <= tolerance
  {
    var d := Abs(seen as real - total as real * ratio);
    var t := total as real;
    assert d / t == -(d / -t);
    assert d / -t >= 0.0;
  }

  /** The worked numbers: 250 of 1000 at ratio 0.25 is exact; 260 of 1000 is
      0.01 off, which passes exactly for tolerances of 0.01 or more. */
  lemma WorkedExamples(tolerance: real)
    ensures DiffRatio(250, 1000, 0.25) == 0.0
    ensures DiffRatio(260, 1000, 0.25) == 0.01
    ensures DiffRatio(260, 1000, 0.25) <= tolerance <==> tolerance >= 0.01
  {
    assert 1000 as real * 0.25 == 250.0;
  }
}
