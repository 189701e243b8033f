/** The per-message computation of the two transactional examples: find every
    integer in the payload, add them up, emit the sum (`find_next_int` and the
    summing part of `process_message`). */
module MessageFunction {
  import opened Decimal

  datatype Record = Record(key: string, payload: string)
  datatype Output = Output(key: string, value: string)
  datatype Option<+T> = None | Some(value: T)

  const INT_MAX: int := 0x7FFF_FFFF
  const ULONG_MODULUS: int := 0x1_0000_0000_0000_0000

  /** A C `int` after an overflowing operation, on a two's complement machine. */
  function ToInt(x: int): (r: int)
    ensures -INT_MAX - 1 <= r <= INT_MAX
    ensures -INT_MAX - 1 <= x <= INT_MAX ==> r == x
  {
    var m := x % 0x1_0000_0000;
    if m <= INT_MAX then m else m - 0x1_0000_0000
  }

  /** Adding an `int` to an `unsigned long`. */
  function AddULong(sum: nat, num: int): (r: nat)
    requires sum < ULONG_MODULUS && -INT_MAX - 1 <= num <= INT_MAX
    ensures r < ULONG_MODULUS
  {
    var t := sum + num;
    if t < 0 then t + ULONG_MODULUS else if t < ULONG_MODULUS then t else t - ULONG_MODULUS
  }

  /** The result differs from the exact one by whole multiples of 2^32, or 2^64. */
  lemma ToIntIs(x: int) returns (k: int)
    ensures ToInt(x) + k * 0x1_0000_0000 == x
  {
    var q := x / 0x1_0000_0000;
    k := if x % 0x1_0000_0000 <= INT_MAX then q else q + 1;
  }

  lemma AddULongIs(sum: nat, num: int)
    requires sum < ULONG_MODULUS && -INT_MAX - 1 <= num <= INT_MAX
    ensures var d := sum + num - AddULong(sum, num); d == 0 || d == ULONG_MODULUS || d == -ULONG_MODULUS
  {
  }

  /** [i, j) is a run of digits that cannot be extended to either side. */
  ghost predicate MaximalRun(s: string, i: int, j: int) {
    && 0 <= i < j <= |s|
    && (forall k :: i <= k < j ==> IsDigit(s[k]))
    && (i > 0 ==> !IsDigit(s[i - 1]))
    && (j < |s| ==> !IsDigit(s[j]))
  }

  function FirstDigit(s: string, start: nat): (i: nat)
    requires start <= |s|
    ensures start <= i <= |s|
    ensures forall k :: start <= k < i ==> !IsDigit(s[k])
    ensures i < |s| ==> IsDigit(s[i])
    decreases |s| - start
  {
    if start == |s| || IsDigit(s[start]) then start else FirstDigit(s, start + 1)
  }

  function RunEnd(s: string, start: nat): (j: nat)
    requires start <= |s|
    ensures start <= j <= |s|
    ensures forall k :: start <= k < j ==> IsDigit(s[k])
    ensures j < |s| ==> !IsDigit(s[j])
    decreases |s| - start
  {
    if start == |s| || !IsDigit(s[start]) then start else RunEnd(s, start + 1)
  }

  /** Every listed interval lies in the text. */
  predicate InText(s: string, runs: seq<(nat, nat)>) {
    forall k :: 0 <= k < |runs| ==> runs[k].0 < runs[k].1 <= |s|
  }

  /** The digit runs at or after `start`, left to right. */
  function Runs(s: string, start: nat): (r: seq<(nat, nat)>)
    requires start <= |s|
    ensures InText(s, r)
    decreases |s| - start
  {
    var i := FirstDigit(s, start);
    if i == |s| then []
    else
      var j := RunEnd(s, i);
      [(i, j)] + Runs(s, j)
  }

  /** `Runs` lists exactly the maximal runs from a position that is not inside a
      run, each once and in order. */
  lemma {:induction false} RunsAreTheMaximalRuns(s: string, start: nat)
    requires start <= |s|
    requires start > 0 && start < |s| ==> !IsDigit(s[start - 1]) || !IsDigit(s[start])
    ensures forall i, j :: start <= i && MaximalRun(s, i, j) <==> (i, j) in Runs(s, start)
    ensures forall a, b :: 0 <= a < b < |Runs(s, start)| ==> Runs(s, start)[a].1 < Runs(s, start)[b].0
    ensures forall a :: 0 <= a < |Runs(s, start)| ==> start <= Runs(s, start)[a].0
    decreases |s| - start
  {
    hide FirstDigit, RunEnd;
    var f := FirstDigit(s, start);
    if f < |s| {
      var e := RunEnd(s, f);
      RunsAreTheMaximalRuns(s, e);
      assert Runs(s, start) == [(f, e)] + Runs(s, e);
      FirstRunThenOthers(s, start);
      RunsApart(s, e);
    } else {
      assert Runs(s, start) == [];
      NoRunsAhead(s, start);
    }
  }

  lemma NoRunsAhead(s: string, start: nat)
    requires start <= |s| && FirstDigit(s, start) == |s|
    ensures forall i, j :: start <= i ==> !MaximalRun(s, i, j)
  {
    hide FirstDigit;
    forall i, j | start <= i
      ensures !MaximalRun(s, i, j)
    {
      if i < |s| { assert !IsDigit(s[i]); }
    }
  }

  /** A run listed after the end of another does not begin there. */
  lemma RunsApart(s: string, e: nat)
    requires e <= |s| && (e < |s| ==> !IsDigit(s[e]))
    requires forall a :: 0 <= a < |Runs(s, e)| ==> e <= Runs(s, e)[a].0
    requires forall i, j :: (i, j) in Runs(s, e) ==> MaximalRun(s, i, j)
    ensures forall a :: 0 <= a < |Runs(s, e)| ==> e < Runs(s, e)[a].0
  {
    forall a | 0 <= a < |Runs(s, e)|
      ensures e < Runs(s, e)[a].0
    {
      var run := Runs(s, e)[a];
      assert (run.0, run.1) in Runs(s, e);
      assert IsDigit(s[run.0]);
    }
  }

  /** The maximal runs are the first one and those after its end. */
  lemma FirstRunThenOthers(s: string, start: nat)
    requires start <= |s| && FirstDigit(s, start) < |s|
    requires start > 0 && start < |s| ==> !IsDigit(s[start - 1]) || !IsDigit(s[start])
    ensures var f := FirstDigit(s, start);
            var e := RunEnd(s, f);
            forall i, j :: start <= i && MaximalRun(s, i, j) <==> (i == f && j == e) || (e <= i && MaximalRun(s, i, j))
  {
    hide FirstDigit, RunEnd;
    var f := FirstDigit(s, start);
    var e := RunEnd(s, f);
    FirstRunIsMaximal(s, start);
    forall i, j
      ensures start <= i && MaximalRun(s, i, j) <==> (i == f && j == e) || (e <= i && MaximalRun(s, i, j))
    {
      if f < i < e { assert IsDigit(s[i - 1]); }
    }
  }

  /** The first run found is maximal and is the only one that starts before its end. */
  lemma FirstRunIsMaximal(s: string, start: nat)
    requires start <= |s| && FirstDigit(s, start) < |s|
    requires start > 0 && start < |s| ==> !IsDigit(s[start - 1]) || !IsDigit(s[start])
    ensures var f := FirstDigit(s, start); MaximalRun(s, f, RunEnd(s, f))
    ensures forall i, j :: start <= i <= FirstDigit(s, start) && MaximalRun(s, i, j) ==>
              i == FirstDigit(s, start) && j == RunEnd(s, FirstDigit(s, start))
  {
    var f := FirstDigit(s, start);
    var e := RunEnd(s, f);
    forall i, j | start <= i <= f && MaximalRun(s, i, j)
      ensures i == f && j == e
    {
      assert IsDigit(s[i]);
    }
  }

  function RunTotal(s: string, runs: seq<(nat, nat)>): nat
    requires InText(s, runs)
  {
    if runs == [] then 0
    else
      var last := runs[|runs| - 1];
      RunTotal(s, runs[..|runs| - 1]) + Value(s[last.0..last.1])
  }

  /** The mathematical sum of all integers written in the payload. */
  function Total(s: string): nat {
    RunTotal(s, Runs(s, 0))
  }

  /** Every integer in the payload fits a C `int`. */
  ghost predicate FitsInt(s: string) {
    forall i, j :: MaximalRun(s, i, j) ==> Value(s[i..j]) <= INT_MAX
  }

  lemma WholeTurns(a: int, k: int)
    ensures (a + k * 0x1_0000_0000) % 0x1_0000_0000 == a % 0x1_0000_0000
  {
  }

  /** Wrapping at every step gives what one wrap at the end gives. */
  lemma ToIntStep(v: nat, d: nat)
    ensures ToInt(ToInt(v) * 10 + d) == ToInt(v * 10 + d)
  {
    var q := v / 0x1_0000_0000;
    var turns := if v % 0x1_0000_0000 <= INT_MAX then q else q + 1;
    assert ToInt(v) == v - turns * 0x1_0000_0000;
    WholeTurns(ToInt(v) * 10 + d, turns * 10);
  }

  datatype FindResult = NotFound | Found(end: nat, num: int)

  /** `find_next_int`: scan from `start` for the next digit run. */
  method FindNextInt(s: string, start: nat) returns (r: FindResult)
    requires start <= |s|
    ensures r.NotFound? <==> FirstDigit(s, start) == |s|
    ensures r.Found? ==>
              var i := FirstDigit(s, start);
              && i < r.end == RunEnd(s, i)
              && r.num == ToInt(Value(s[i..r.end]))
  {
    hide FirstDigit, RunEnd, ToInt;
    var collecting := false;
    var num := 0;
    ghost var first := FirstDigit(s, start);
    var p := start;
    while p < |s|
      invariant start <= p <= |s|
      invariant collecting <==> first < p
      invariant p < first ==> !collecting
      invariant collecting ==> p <= RunEnd(s, first)
      invariant !collecting ==> num == 0
      invariant collecting ==> num == ToInt(Value(s[first..p]))
    {
      if IsDigit(s[p]) {
        ghost var before := num;
        num := ToInt(num * 10 + DigitValue(s[p]));
        collecting := true;
        assert s[first..p + 1][..p - first] == s[first..p];
        ToIntStep(Value(s[first..p]), DigitValue(s[p]));
      } else if collecting {
        break;
      }
      p := p + 1;
    }
    if !collecting {
      return NotFound;
    }
    return Found(p, num);
  }

  /** The `sum` variable of `process_message` after the last integer. */
  function Sum(s: string, runs: seq<(nat, nat)>): (r: nat)
    requires InText(s, runs)
    ensures r < ULONG_MODULUS
  {
    if runs == [] then 0
    else
      var last := runs[|runs| - 1];
      AddULong(Sum(s, runs[..|runs| - 1]), ToInt(Value(s[last.0..last.1])))
  }

  /** The sum of the C `int` values of the runs. */
  function IntTotal(s: string, runs: seq<(nat, nat)>): int
    requires InText(s, runs)
  {
    if runs == [] then 0
    else
      var last := runs[|runs| - 1];
      IntTotal(s, runs[..|runs| - 1]) + ToInt(Value(s[last.0..last.1]))
  }

  /** Whatever overflows, the sum is that of the C `int` values modulo 2^64. */
  lemma {:induction false} SumWraps(s: string, runs: seq<(nat, nat)>) returns (k: int)
    requires InText(s, runs)
    ensures Sum(s, runs) + k * ULONG_MODULUS == IntTotal(s, runs)
  {
    hide ToInt;
    if runs == [] {
      k := 0;
    } else {
      var front, last := runs[..|runs| - 1], runs[|runs| - 1];
      k := SumWraps(s, front);
      var num := ToInt(Value(s[last.0..last.1]));
      AddULongIs(Sum(s, front), num);
      k := k + (if Sum(s, front) + num < 0 then -1 else if Sum(s, front) + num >= ULONG_MODULUS then 1 else 0);
    }
  }

  /** The message function of `process_message`: at most one output record. */
  function Emit(r: Record): Option<Output> {
    var sum := Sum(r.payload, Runs(r.payload, 0));
    if sum == 0 then None else Some(Output(r.key, Numeral(sum)))
  }

  /** What is emitted for every message: the input key with the numeral of the sum of the
      C `int` values modulo 2^64, or nothing if that is zero. */
  lemma EmitsTheSum(r: Record)
    ensures var v := IntTotal(r.payload, Runs(r.payload, 0)) % ULONG_MODULUS;
            Emit(r) == if v == 0 then None else Some(Output(r.key, Numeral(v)))
  {
    hide Sum, IntTotal, Runs, Numeral;
    var k := SumWraps(r.payload, Runs(r.payload, 0));
    Remainder(Sum(r.payload, Runs(r.payload, 0)), k);
  }

  lemma Remainder(x: nat, k: int)
    requires x < ULONG_MODULUS
    ensures (x + k * ULONG_MODULUS) % ULONG_MODULUS == x
  {
  }

  /** One turn of the summing loop: the next run moves from the unread ones to
      the ones already added. */
  lemma NextRun(s: string, p: nat, found: seq<(nat, nat)>)
    requires p <= |s| && FirstDigit(s, p) < |s| && InText(s, found)
    ensures var i := FirstDigit(s, p);
            var run := (i, RunEnd(s, i));
            && p < run.1
            && InText(s, found + [run])
            && found + [run] + Runs(s, run.1) == found + Runs(s, p)
            && Sum(s, found + [run]) == AddULong(Sum(s, found), ToInt(Value(s[run.0..run.1])))
  {
    var i := FirstDigit(s, p);
    var run := (i, RunEnd(s, i));
    assert Runs(s, p) == [run] + Runs(s, run.1);
    assert InText(s, [run]);
    var longer := found + [run];
    assert InText(s, longer);
    assert longer[..|longer| - 1] == found;
  }

  /** The computing part of `process_message`. */
  method SumIntegers(s: string) returns (sum: nat)
    ensures sum == Sum(s, Runs(s, 0))
  {
    sum := 0;
    var p := 0;
    ghost var found: seq<(nat, nat)> := [];
    while true
      invariant p <= |s|
      invariant found + Runs(s, p) == Runs(s, 0)
      invariant InText(s, found)
      invariant sum == Sum(s, found)
      decreases |s| - p
    {
      var r := FindNextInt(s, p);
      if r.NotFound? {
        break;
      }
      NextRun(s, p, found);
      found := found + [(FirstDigit(s, p), r.end)];
      sum := AddULong(sum, r.num);
      p := r.end;
    }
    assert found + [] == found;
  }

  /** Every listed run denotes a number that fits a C `int`. */
  ghost predicate RunsFitInt(s: string, runs: seq<(nat, nat)>)
    requires InText(s, runs)
  {
    forall k :: 0 <= k < |runs| ==> Value(s[runs[k].0..runs[k].1]) <= INT_MAX
  }

  /** When every integer fits `int` and the total fits `unsigned long`, the sum is
      the mathematical one. */
  lemma SumIsTotal(s: string)
    requires FitsInt(s) && Total(s) < ULONG_MODULUS
    ensures Sum(s, Runs(s, 0)) == Total(s)
  {
    var runs := Runs(s, 0);
    RunsAreTheMaximalRuns(s, 0);
    forall k | 0 <= k < |runs|
      ensures Value(s[runs[k].0..runs[k].1]) <= INT_MAX
    {
      assert (runs[k].0, runs[k].1) in runs;
      assert MaximalRun(s, runs[k].0, runs[k].1);
    }
    SumOfFittingRuns(s, runs);
  }

  /** What an output record says: the total of the integers of the payload under
      the key of the input, and nothing for a message without a non-zero integer. */
  lemma EmitsTheTotal(r: Record)
    requires FitsInt(r.payload) && Total(r.payload) < ULONG_MODULUS
    ensures Emit(r) == if Total(r.payload) == 0 then None else Some(Output(r.key, Numeral(Total(r.payload))))
  {
    SumIsTotal(r.payload);
  }

  lemma {:induction false} SumOfFittingRuns(s: string, runs: seq<(nat, nat)>)
    requires InText(s, runs) && RunsFitInt(s, runs) && RunTotal(s, runs) < ULONG_MODULUS
    ensures Sum(s, runs) == RunTotal(s, runs)
  {
    if runs != [] {
      var front, last := runs[..|runs| - 1], runs[|runs| - 1];
      assert Value(s[last.0..last.1]) <= INT_MAX;
      assert RunsFitInt(s, front);
      SumOfFittingRuns(s, front);
    }
  }

  /** The printed sum always fits the 64-byte buffer it is printed into. */
  lemma PrintedSumFits(sum: nat)
    requires sum < ULONG_MODULUS
    ensures |Numeral(sum)| < 64
  {
    assert Pow10(10) == 10_000_000_000;
    assert Pow10(20) == 100_000_000_000_000_000_000;
    NumeralLength(sum, 20);
  }

  lemma AllDigitsIsOneRun(s: string)
    requires s != [] && AllDigits(s)
    ensures Runs(s, 0) == [(0, |s|)]
  {
    assert forall k :: 0 <= k < |s| ==> IsDigit(s[k]);
    assert FirstDigit(s, 0) == 0;
    assert RunEnd(s, 0) == |s|;
    assert Runs(s, |s|) == [];
  }

  /** Emitting is stable: an emitted value within `int`, fed back as a payload,
      is emitted again unchanged. */
  lemma EmittedValueIsAFixpoint(key: string, n: nat)
    requires 0 < n <= INT_MAX
    ensures Emit(Record(key, Numeral(n))) == Some(Output(key, Numeral(n)))
  {
    var s := Numeral(n);
    NumeralValue(n);
    AllDigitsIsOneRun(s);
    NextRun(s, 0, []);
    assert s[0..|s|] == s;
    assert [] + [(0, |s|)] == [(0, |s|)];
  }
}
