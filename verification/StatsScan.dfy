/** The scan of the statistics text by examples/rdkafka_performance.c, which averages the
    round-trip times of the brokers. Texts hold no NUL character. */
module StatsScan {
  import opened Decimal

  /** An unsigned 64-bit value. */
  type U64 = x: int | 0 <= x < 0x1_0000_0000_0000_0000

  // ----- the C library -----

  predicate OccursAt(s: string, k: nat, f: string) {
    k + |f| <= |s| && s[k..k + |f|] == f
  }

  /** `strstr` from a place on: the first occurrence, or -1. */
  function FindFrom(s: string, from: nat, f: string): (k: int)
    requires from <= |s|
    ensures k == -1 || from <= k <= |s| - |f|
    decreases |s| - from
  {
    if OccursAt(s, from, f) then from
    else if from == |s| then -1
    else FindFrom(s, from + 1, f)
  }

  lemma {:induction false} FindsTheFirst(s: string, from: nat, f: string)
    requires from <= |s|
    ensures var k := FindFrom(s, from, f);
            && (k >= 0 ==> OccursAt(s, k, f))
            && forall i: nat :: from <= i <= |s| && (k == -1 || i < k) ==> !OccursAt(s, i, f)
    decreases |s| - from
  {
    if !OccursAt(s, from, f) && from < |s| {
      FindsTheFirst(s, from + 1, f);
    }
  }

  /** `isspace` */
  predicate IsSpace(c: char) {
    c == ' ' || '\t' <= c <= '\r'
  }

  function SkipSpace(s: string, i: nat): (k: nat)
    requires i <= |s|
    ensures i <= k <= |s| && (k < |s| ==> !IsSpace(s[k])) && forall j :: i <= j < k ==> IsSpace(s[j])
    decreases |s| - i
  {
    if i < |s| && IsSpace(s[i]) then SkipSpace(s, i + 1) else i
  }

  function DigitsEnd(s: string, i: nat): (k: nat)
    requires i <= |s|
    ensures i <= k <= |s| && (k < |s| ==> !IsDigit(s[k])) && AllDigits(s[i..k])
    decreases |s| - i
  {
    if i < |s| && IsDigit(s[i]) then
      var k := DigitsEnd(s, i + 1);
      assert s[i..k] == [s[i]] + s[i + 1..k];
      k
    else i
  }

  /** A value and the place after it. */
  datatype Field = Field(value: U64, end: nat)

  /** The value of a numeral in 64 bits: too large ones are cut to the largest value,
      negative ones wrap around. */
  function Clamp(v: nat, negative: bool): U64 {
    if v >= 0x1_0000_0000_0000_0000 then 0xFFFF_FFFF_FFFF_FFFF
    else if negative && v > 0 then 0x1_0000_0000_0000_0000 - v
    else v
  }

  /** `strtoull` in base 10, where no space comes first. */
  function ReadNumber(s: string, i: nat): (f: Field)
    requires i <= |s|
    ensures i <= f.end <= |s|
  {
    var j := if i < |s| && (s[i] == '+' || s[i] == '-') then i + 1 else i;
    var e := DigitsEnd(s, j);
    if e == j then Field(0, i) else Field(Clamp(Value(s[j..e]), s[i] == '-'), e)
  }

  /** At i stands a sign or none, and from j to e as many digits as there are, at least one. */
  predicate NumeralAt(s: string, i: nat, j: nat, e: nat) {
    && i <= j <= i + 1 && j < e <= |s| && (j > i <==> s[i] == '+' || s[i] == '-')
    && AllDigits(s[j..e]) && (e < |s| ==> !IsDigit(s[e]))
  }

  lemma {:induction false} DigitsEndIs(s: string, j: nat, e: nat)
    requires j <= e <= |s| && AllDigits(s[j..e]) && (e < |s| ==> !IsDigit(s[e]))
    ensures DigitsEnd(s, j) == e
    decreases e - j
  {
    if j < e {
      assert IsDigit(s[j..e][0]);
      assert s[j + 1..e] == s[j..e][1..];
      DigitsEndIs(s, j + 1, e);
    }
  }

  /** What is read: the decimal value of the digits, modulo 2^64 where there is a minus sign,
      the largest value if they are too many, and nothing exactly if there is no numeral. */
  lemma ReadNumberIs(s: string, i: nat)
    requires i <= |s|
    ensures forall j: nat, e: nat :: NumeralAt(s, i, j, e) ==>
              var f, v := ReadNumber(s, i), Value(s[j..e]);
              && f.end == e
              && (v >= 0x1_0000_0000_0000_0000 ==> f.value == 0xFFFF_FFFF_FFFF_FFFF)
              && (v < 0x1_0000_0000_0000_0000 && s[i] != '-' ==> f.value == v)
              && (v < 0x1_0000_0000_0000_0000 && s[i] == '-' ==> f.value + v == 0 || f.value + v == 0x1_0000_0000_0000_0000)
    ensures ReadNumber(s, i).end == i <==> !exists j: nat, e: nat :: NumeralAt(s, i, j, e)
  {
    forall j: nat, e: nat | NumeralAt(s, i, j, e)
      ensures DigitsEnd(s, j) == e && ReadNumber(s, i) == Field(Clamp(Value(s[j..e]), s[i] == '-'), e)
    {
      DigitsEndIs(s, j, e);
      assert IsDigit(s[j..e][0]);
    }
    var j := if i < |s| && (s[i] == '+' || s[i] == '-') then i + 1 else i;
    if DigitsEnd(s, j) > j {
      assert NumeralAt(s, i, j, DigitsEnd(s, j));
    }
  }

  /** A number printed in decimal is read back as it was, wherever it stands. */
  lemma PrintedNumberIsRead(s: string, i: nat, n: U64)
    requires i + |Numeral(n)| <= |s| && s[i..i + |Numeral(n)|] == Numeral(n)
    requires i + |Numeral(n)| < |s| ==> !IsDigit(s[i + |Numeral(n)|])
    ensures ReadNumber(s, i) == Field(n, i + |Numeral(n)|)
  {
    var e := i + |Numeral(n)|;
    NumeralValue(n);
    assert s[i] == s[i..e][0] && IsDigit(s[i]);
    assert NumeralAt(s, i, i, e);
    ReadNumberIs(s, i);
  }

  // ----- the program -----

  datatype Reading = NoNumber | Reads(field: Field)

  /** The number after a field that occurs at a place, if there is one. */
  function NumberAfter(s: string, b: nat, f: string): (r: Reading)
    requires b + |f| <= |s|
    ensures r.Reads? ==> b + |f| < r.field.end <= |s|
  {
    var c := SkipSpace(s, b + |f|);
    var n := ReadNumber(s, c);
    if n.end == c then NoNumber else Reads(n)
  }

  /** One round of the search: nothing left, a number, or where to go on. */
  datatype Round = Nothing | Number(field: Field) | GoOn(t: nat)

  function Search(s: string, t: nat, f1: string, f2: string): (r: Round)
    requires t <= |s| && f1 != [] && f2 != []
    ensures r.GoOn? ==> t < r.t <= |s|
    ensures r.Number? ==> t < r.field.end <= |s|
  {
    var a := FindFrom(s, t, f1);
    if a == -1 then Nothing
    else
      var b := FindFrom(s, a + |f1|, f2);
      if b == -1 then GoOn(a + |f1|)
      else
        match NumberAfter(s, b, f2)
        case Reads(n) => Number(n)
        case NoNumber => GoOn(SkipSpace(s, b + |f2|))
  }

  /** The first occurrence of a text at or after a place. */
  predicate FirstAt(s: string, from: nat, f: string, k: nat) {
    from <= k && OccursAt(s, k, f) && forall i: nat :: from <= i < k ==> !OccursAt(s, i, f)
  }

  /** The first place from one on that is no space. */
  predicate PastSpace(s: string, from: nat, k: nat) {
    from <= k <= |s| && (forall j :: from <= j < k ==> IsBlank(s[j])) && (k < |s| ==> !IsBlank(s[k]))
  }

  /** Blank, or one of the control characters 9 to 13. */
  predicate IsBlank(c: char) {
    c as int in {9, 10, 11, 12, 13, 32}
  }

  lemma FirstIsFound(s: string, from: nat, f: string, k: nat)
    requires from <= |s| && FirstAt(s, from, f, k)
    ensures FindFrom(s, from, f) == k
  {
    assert k <= |s|;
    hide OccursAt, FindFrom;
    FindsTheFirst(s, from, f);
  }

  /** The search ends exactly if the first field does not occur any more. */
  lemma SearchEndsIff(s: string, t: nat, f1: string, f2: string)
    requires t <= |s| && f1 != [] && f2 != []
    ensures Search(s, t, f1, f2) == Nothing <==> forall i: nat :: t <= i <= |s| ==> !OccursAt(s, i, f1)
  {
    hide OccursAt, FindFrom, NumberAfter, SkipSpace;
    FindsTheFirst(s, t, f1);
  }

  /** Without a second field after the first, the search goes on behind the first. */
  lemma SearchMisses(s: string, t: nat, f1: string, f2: string, a: nat)
    requires t <= |s| && f1 != [] && f2 != [] && FirstAt(s, t, f1, a)
    requires forall i: nat :: a + |f1| <= i <= |s| ==> !OccursAt(s, i, f2)
    ensures Search(s, t, f1, f2) == GoOn(a + |f1|)
  {
    hide OccursAt, FindFrom, NumberAfter, SkipSpace;
    FirstIsFound(s, t, f1, a);
    FindsTheFirst(s, a + |f1|, f2);
  }

  /** With both fields, a numeral after the second, and any spaces, is what is read; where
      there is none, the search goes on there. */
  lemma SearchReads(s: string, t: nat, f1: string, f2: string, a: nat, b: nat, c: nat)
    requires t <= |s| && f1 != [] && f2 != [] && FirstAt(s, t, f1, a) && FirstAt(s, a + |f1|, f2, b) && PastSpace(s, b + |f2|, c)
    ensures Search(s, t, f1, f2) ==
            if exists j: nat, e: nat :: NumeralAt(s, c, j, e) then Number(ReadNumber(s, c)) else GoOn(c)
  {
    hide OccursAt, FindFrom, ReadNumber, NumeralAt;
    FirstIsFound(s, t, f1, a);
    FirstIsFound(s, a + |f1|, f2, b);
    assert SkipSpace(s, b + |f2|) == c;
    ReadNumberIs(s, c);
  }

  /** The number stands after the first `f2` that follows an `f1` not before t. */
  predicate StandsAt(s: string, t: nat, f1: string, f2: string, a: nat, b: nat, n: Field) {
    && t <= a && OccursAt(s, a, f1) && a + |f1| <= b && OccursAt(s, b, f2)
    && b == FindFrom(s, a + |f1|, f2)
    && NumberAfter(s, b, f2) == Reads(n)
  }

  lemma NumbersAreRead(s: string, t: nat, f1: string, f2: string) returns (a: nat, b: nat)
    requires t <= |s| && f1 != [] && f2 != [] && Search(s, t, f1, f2).Number?
    ensures StandsAt(s, t, f1, f2, a, b, Search(s, t, f1, f2).field)
  {
    hide OccursAt, FindFrom, NumberAfter;
    a := FindFrom(s, t, f1);
    FindsTheFirst(s, t, f1);
    b := FindFrom(s, a + |f1|, f2);
    FindsTheFirst(s, a + |f1|, f2);
  }

  /** `json_parse_fields`: the number after the first `f2` that follows an `f1`; where
      there is no number, the search goes on behind it. */
  function ParseFields(s: string, t: nat, f1: string, f2: string): (r: Field)
    requires t <= |s| && f1 != [] && f2 != []
    ensures t <= r.end <= |s| && (t < |s| ==> t < r.end)
    decreases |s| - t
  {
    match Search(s, t, f1, f2)
    case Nothing => Field(0, |s|)
    case Number(field) => field
    case GoOn(t') => ParseFields(s, t', f1, f2)
  }

  lemma StandsLater(s: string, t: nat, t': nat, f1: string, f2: string, a: nat, b: nat, n: Field)
    requires t <= t' && StandsAt(s, t', f1, f2, a, b, n)
    ensures StandsAt(s, t, f1, f2, a, b, n)
  {
  }

  /** A value that is not zero was read off the text after its two fields. */
  lemma {:induction false} ValuesAreRead(s: string, t: nat, f1: string, f2: string) returns (a: nat, b: nat)
    requires t <= |s| && f1 != [] && f2 != [] && ParseFields(s, t, f1, f2).value != 0
    ensures StandsAt(s, t, f1, f2, a, b, ParseFields(s, t, f1, f2))
    decreases |s| - t
  {
    var r := Search(s, t, f1, f2);
    if r.Number? {
      a, b := NumbersAreRead(s, t, f1, f2);
    } else {
      a, b := ValuesAreRead(s, r.t, f1, f2);
      StandsLater(s, t, r.t, f1, f2, a, b, ParseFields(s, t, f1, f2));
    }
  }

  /** The values the scan extracts from a place on. */
  function Samples(s: string, t: nat, f1: string, f2: string): seq<U64>
    requires t <= |s| && f1 != [] && f2 != []
    decreases |s| - t
  {
    if t == |s| then []
    else
      var f := ParseFields(s, t, f1, f2);
      [f.value] + Samples(s, f.end, f1, f2)
  }

  /** Those of at least 100. */
  function High(xs: seq<U64>): seq<U64> {
    if xs == [] then [] else (if xs[0] >= 100 then [xs[0]] else []) + High(xs[1..])
  }

  /** The first 100 of them. */
  function Kept(s: string, f1: string, f2: string): seq<U64>
    requires f1 != [] && f2 != []
  {
    var high := High(Samples(s, 0, f1, f2));
    if |high| <= 100 then high else high[..100]
  }

  /** The scan is over when the first field does not occur any more. */
  lemma ScanEndsWhere(s: string, t: nat, f1: string, f2: string)
    requires t <= |s| && f1 != [] && f2 != [] && forall i: nat :: t <= i <= |s| ==> !OccursAt(s, i, f1)
    ensures High(Samples(s, t, f1, f2)) == []
  {
    hide OccursAt, Search;
    SearchEndsIff(s, t, f1, f2);
    assert Samples(s, |s|, f1, f2) == [];
  }

  /** A numeral after its two fields is the next sample, and the scan goes on behind it. */
  lemma ScanReads(s: string, t: nat, f1: string, f2: string, a: nat, b: nat, c: nat, j: nat, e: nat)
    requires t < |s| && f1 != [] && f2 != [] && FirstAt(s, t, f1, a) && FirstAt(s, a + |f1|, f2, b)
    requires PastSpace(s, b + |f2|, c) && NumeralAt(s, c, j, e)
    ensures var v := ReadNumber(s, c).value;
            High(Samples(s, t, f1, f2)) == (if v >= 100 then [v] else []) + High(Samples(s, e, f1, f2))
  {
    hide OccursAt, Search, High, ReadNumber, NumeralAt;
    SearchReads(s, t, f1, f2, a, b, c);
    ReadNumberIs(s, c);
    HighStep(s, t, f1, f2);
  }

  /** Where a round finds no number, the values are those from where it goes on. */
  lemma ScanGoesOn(s: string, t: nat, f1: string, f2: string)
    requires t < |s| && f1 != [] && f2 != [] && Search(s, t, f1, f2).GoOn?
    ensures High(Samples(s, t, f1, f2)) == High(Samples(s, Search(s, t, f1, f2).t, f1, f2))
  {
    hide Search, OccursAt;
    var t' := Search(s, t, f1, f2).t;
    assert ParseFields(s, t, f1, f2) == ParseFields(s, t', f1, f2);
    HighStep(s, t, f1, f2);
    if t' < |s| {
      HighStep(s, t', f1, f2);
    } else {
      NoSearchAtEnd(s, f1, f2);
    }
  }

  lemma NoSearchAtEnd(s: string, f1: string, f2: string)
    requires f1 != [] && f2 != []
    ensures ParseFields(s, |s|, f1, f2) == Field(0, |s|)
  {
    SearchEndsIff(s, |s|, f1, f2);
  }

  /** What is kept are the first values, 100 of them if there are as many. */
  lemma KeptIs(s: string, f1: string, f2: string)
    requires f1 != [] && f2 != []
    ensures var high, kept := High(Samples(s, 0, f1, f2)), Kept(s, f1, f2);
            kept <= high && |kept| <= 100 && (|kept| == 100 || kept == high)
  {
  }

  function Sum(xs: seq<U64>): nat {
    if xs == [] then 0 else Sum(xs[..|xs| - 1]) + xs[|xs| - 1]
  }

  /** The sum in 64 bits. */
  function WrappedSum(xs: seq<U64>): U64 {
    if xs == [] then 0
    else
      var r := WrappedSum(xs[..|xs| - 1]) + xs[|xs| - 1];
      if r < 0x1_0000_0000_0000_0000 then r else r - 0x1_0000_0000_0000_0000
  }

  /** The sum in 64 bits is the sum less some multiple of 2^64. */
  lemma {:induction false} WrappedOrExact(xs: seq<U64>) returns (k: nat)
    ensures WrappedSum(xs) + k * 0x1_0000_0000_0000_0000 == Sum(xs)
  {
    if xs == [] {
      k := 0;
    } else {
      k := WrappedOrExact(xs[..|xs| - 1]);
      if WrappedSum(xs[..|xs| - 1]) + xs[|xs| - 1] >= 0x1_0000_0000_0000_0000 {
        k := k + 1;
      }
    }
  }

  /** The values of at least 100, each as often as it was sampled, in the order of the
      samples. */
  lemma {:induction false} HighIs(xs: seq<U64>)
    ensures forall x :: multiset(High(xs))[x] == if x >= 100 then multiset(xs)[x] else 0
  {
    if xs != [] {
      HighIs(xs[1..]);
      assert xs == [xs[0]] + xs[1..];
    }
  }

  function HeadHigh(xs: seq<U64>): seq<U64>
    requires xs != []
  {
    if xs[0] >= 100 then [xs[0]] else []
  }

  lemma HighFirst(xs: seq<U64>)
    requires xs != []
    ensures High(xs) == HeadHigh(xs) + High(xs[1..])
  {
  }

  lemma Rejoin(a: seq<U64>, b: seq<U64>, c: seq<U64>)
    ensures a + (b + c) == a + b + c
  {
  }

  lemma FirstOfJoined(xs: seq<U64>, ys: seq<U64>)
    requires xs != []
    ensures HeadHigh(xs + ys) == HeadHigh(xs) && (xs + ys)[1..] == xs[1..] + ys
  {
  }

  lemma {:induction false} HighConcat(xs: seq<U64>, ys: seq<U64>)
    ensures High(xs + ys) == High(xs) + High(ys)
  {
    if xs == [] {
      assert xs + ys == ys;
    } else {
      hide High, HeadHigh;
      HighConcat(xs[1..], ys);
      HighFirst(xs);
      HighFirst(xs + ys);
      FirstOfJoined(xs, ys);
      Rejoin(HeadHigh(xs), High(xs[1..]), High(ys));
    }
  }

  lemma Scales(x: nat, y: nat, n: nat)
    requires x <= y
    ensures x * n <= y * n
  {
  }

  lemma DividesFurther(a: nat, b: nat, n: nat)
    requires a + n <= b && n > 0
    ensures a / n < b / n
  {
    var x, y := a / n, b / n;
    assert a == x * n + a % n && b == y * n + b % n;
    assert y <= x ==> y * n <= x * n by {
      if y <= x { Scales(y, x, n); }
    }
  }

  /** What the scan leaves in `cnt.avg_rtt`. */
  function Average(xs: seq<U64>): nat
  {
    if xs == [] then 0 else WrappedSum(xs) / |xs|
  }

  /** In every case it is the sum modulo 2^64, divided by the number of values. */
  lemma AverageIs(xs: seq<U64>)
    requires xs != []
    ensures Average(xs) == (Sum(xs) % 0x1_0000_0000_0000_0000) / |xs|
  {
    hide Sum, WrappedSum;
    var k := WrappedOrExact(xs);
    assert (WrappedSum(xs) + k * 0x1_0000_0000_0000_0000) % 0x1_0000_0000_0000_0000 == WrappedSum(xs);
  }

  /** It is the floored mean of the values kept exactly if their sum fits 64 bits. */
  lemma MeanIffSumFits(xs: seq<U64>)
    requires 0 < |xs| <= 100
    ensures Average(xs) == Sum(xs) / |xs| <==> Sum(xs) < 0x1_0000_0000_0000_0000
  {
    var k := WrappedOrExact(xs);
    if Sum(xs) >= 0x1_0000_0000_0000_0000 {
      DividesFurther(WrappedSum(xs), Sum(xs), |xs|);
    }
  }

  /** `strstr`, scanning. */
  method Strstr(s: string, from: nat, f: string) returns (k: int)
    requires from <= |s|
    ensures k == FindFrom(s, from, f)
  {
    var i := from;
    while i < |s| && !OccursAt(s, i, f)
      invariant from <= i <= |s| && FindFrom(s, i, f) == FindFrom(s, from, f)
    {
      i := i + 1;
    }
    return if OccursAt(s, i, f) then i else -1;
  }

  method SkipSpaces(s: string, i: nat) returns (k: nat)
    requires i <= |s|
    ensures k == SkipSpace(s, i)
  {
    k := i;
    while k < |s| && IsSpace(s[k])
      invariant i <= k <= |s| && SkipSpace(s, k) == SkipSpace(s, i)
    {
      k := k + 1;
    }
  }

  /** Reading the number after a field. */
  method ReadAfter(s: string, b: nat, f: string) returns (r: Reading, start: nat)
    requires b + |f| <= |s|
    ensures r == NumberAfter(s, b, f) && start == SkipSpace(s, b + |f|)
  {
    start := SkipSpaces(s, b + |f|);
    var n := ReadNumber(s, start);
    r := if n.end == start then NoNumber else Reads(n);
  }

  /** One turn of the loop of `json_parse_fields`. */
  method SearchOnce(s: string, t: nat, f1: string, f2: string) returns (r: Round)
    requires t <= |s| && f1 != [] && f2 != []
    ensures r == Search(s, t, f1, f2)
  {
    hide FindFrom, NumberAfter, SkipSpace;
    var t2 := Strstr(s, t, f1);
    if t2 == -1 {
      return Nothing;
    }
    var t1 := t2 + |f1|;
    t2 := Strstr(s, t1, f2);
    if t2 == -1 {
      return GoOn(t1);
    }
    var n, start := ReadAfter(s, t2, f2);
    return if n.Reads? then Number(n.field) else GoOn(start);
  }

  /** `json_parse_fields` as it is written: it ends on every text. */
  method JsonParseFields(s: string, from: nat, f1: string, f2: string) returns (v: U64, end: nat)
    requires from <= |s| && f1 != [] && f2 != []
    ensures Field(v, end) == ParseFields(s, from, f1, f2)
  {
    var t := from;
    var r := SearchOnce(s, t, f1, f2);
    while r.GoOn?
      invariant t <= |s| && r == Search(s, t, f1, f2)
      invariant ParseFields(s, t, f1, f2) == ParseFields(s, from, f1, f2)
      decreases |s| - t
    {
      t := r.t;
      r := SearchOnce(s, t, f1, f2);
    }
    if r.Number? {
      return r.field.value, r.field.end;
    }
    return 0, |s|;
  }

  lemma HighStep(s: string, t: nat, f1: string, f2: string)
    requires t < |s| && f1 != [] && f2 != []
    ensures var f := ParseFields(s, t, f1, f2);
            High(Samples(s, t, f1, f2)) == (if f.value >= 100 then [f.value] else []) + High(Samples(s, f.end, f1, f2))
  {
    var f := ParseFields(s, t, f1, f2);
    assert Samples(s, t, f1, f2)[1..] == Samples(s, f.end, f1, f2);
  }

  const MAX_AVGS := 100

  /** The samples in use are `kept`, and the slot behind all samples holds their total. */
  ghost predicate Totals(avgRtt: array<U64>, kept: seq<U64>)
    reads avgRtt
  {
    && avgRtt.Length == 101 && |kept| <= 100
    && avgRtt[..|kept|] == kept
    && avgRtt[100] == WrappedSum(kept)
  }

  /** A sample is stored in the next slot; only one of at least 100 is added up. */
  method AddSample(avgRtt: array<U64>, i: nat, v: U64, ghost kept: seq<U64>) returns (i': nat)
    requires Totals(avgRtt, kept) && i == |kept| < 100
    modifies avgRtt
    ensures var now := if v >= 100 then kept + [v] else kept; Totals(avgRtt, now) && i' == |now|
  {
    avgRtt[i] := v;
    assert avgRtt[..i] == kept;
    if v < 100 {
      return i;
    }
    assert (kept + [v])[..|kept|] == kept;
    assert avgRtt[..i + 1] == kept + [v];
    var total := avgRtt[MAX_AVGS] + v;
    avgRtt[MAX_AVGS] := if total < 0x1_0000_0000_0000_0000 then total else total - 0x1_0000_0000_0000_0000;
    assert avgRtt[..i + 1] == kept + [v];
    return i + 1;
  }

  /** The values kept so far and those still to come are all the high values. */
  ghost predicate Scanned(s: string, t: nat, f1: string, f2: string, kept: seq<U64>)
    requires f1 != [] && f2 != []
  {
    t <= |s| && kept + High(Samples(s, t, f1, f2)) == High(Samples(s, 0, f1, f2))
  }

  lemma ScanStep(s: string, t: nat, f1: string, f2: string, kept: seq<U64>)
    requires f1 != [] && f2 != [] && t < |s| && Scanned(s, t, f1, f2, kept)
    ensures var f := ParseFields(s, t, f1, f2);
            Scanned(s, f.end, f1, f2, if f.value >= 100 then kept + [f.value] else kept)
  {
    hide High, Samples, ParseFields;
    HighStep(s, t, f1, f2);
    var f := ParseFields(s, t, f1, f2);
    var rest := High(Samples(s, f.end, f1, f2));
    if f.value >= 100 {
      Regroup(kept, f.value, rest);
    } else {
      assert [] + rest == rest;
    }
  }

  lemma Regroup(kept: seq<U64>, v: U64, rest: seq<U64>)
    ensures kept + ([v] + rest) == kept + [v] + rest
  {
  }

  lemma ScanEnds(s: string, t: nat, f1: string, f2: string, kept: seq<U64>)
    requires f1 != [] && f2 != [] && Scanned(s, t, f1, f2, kept) && (|kept| == 100 || (|kept| < 100 && t == |s|))
    ensures kept == Kept(s, f1, f2)
  {
    assert (kept + High(Samples(s, t, f1, f2)))[..|kept|] == kept;
  }

  /** The loop of `json_parse_stats`: it ends on every text, although low values do not
      advance the index. */
  method Collect(avgRtt: array<U64>, s: string, f1: string, f2: string) returns (i: nat)
    requires f1 != [] && f2 != [] && Totals(avgRtt, [])
    modifies avgRtt
    ensures i == |Kept(s, f1, f2)| && Totals(avgRtt, Kept(s, f1, f2))
  {
    var t := 0;
    i := 0;
    ghost var kept: seq<U64> := [];
    while i < MAX_AVGS && t < |s|
      invariant i == |kept| && Totals(avgRtt, kept) && Scanned(s, t, f1, f2, kept)
      decreases |s| - t
    {
      ScanStep(s, t, f1, f2, kept);
      var v, end := JsonParseFields(s, t, f1, f2);
      i := AddSample(avgRtt, i, v, kept);
      kept := if v >= 100 then kept + [v] else kept;
      t := end;
    }
    ScanEnds(s, t, f1, f2, kept);
  }

  lemma QuotientFits(a: U64, n: nat)
    requires n > 0
    ensures 0 <= a / n < 0x1_0000_0000_0000_0000
  {
    var q := a / n;
    assert a == q * n + a % n;
    Scales(1, n, q);
  }

  /** `json_parse_stats`, for the fields given: the average of the values kept. */
  method AverageOf(s: string, f1: string, f2: string) returns (result: U64)
    requires f1 != [] && f2 != []
    ensures result == Average(Kept(s, f1, f2))
  {
    var avgRtt := new U64[101];
    avgRtt[MAX_AVGS] := 0;
    assert Totals(avgRtt, []);
    hide Kept, WrappedSum;
    var i := Collect(avgRtt, s, f1, f2);
    if i > 0 {
      QuotientFits(avgRtt[MAX_AVGS], i);
      avgRtt[MAX_AVGS] := avgRtt[MAX_AVGS] / i;
    }
    result := avgRtt[MAX_AVGS];
  }

  const RTT := "\"rtt\":"
  const AVG := "\"avg\":"

  /** `json_parse_stats` */
  method JsonParseStats(s: string) returns (result: U64)
    ensures result == Average(Kept(s, RTT, AVG))
    ensures Kept(s, RTT, AVG) != [] && Sum(Kept(s, RTT, AVG)) < 0x1_0000_0000_0000_0000 ==>
              result == Sum(Kept(s, RTT, AVG)) / |Kept(s, RTT, AVG)|
  {
    result := AverageOf(s, RTT, AVG);
    if Kept(s, RTT, AVG) != [] {
      MeanIffSumFits(Kept(s, RTT, AVG));
    }
  }
}
