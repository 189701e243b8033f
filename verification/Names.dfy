/** Names the programs build from a topic and a partition: the keys of the verifiable
    client's assignment map and the transactional ids of the older-broker example. */
module Names {
  import opened CText
  import opened Decimal

  /** `Assignment::name` */
  function Name(topic: string, partition: int): string {
    topic + "." + Signed(partition)
  }

  lemma SignedHasNo(c: char, i: int)
    requires !IsDigit(c) && c != '-'
    ensures c !in Signed(i)
  {
  }

  /** A text splits in one way only at the last occurrence of a character. */
  lemma SplitsAtLast(s: string, t: string, s': string, t': string, c: char)
    requires s + [c] + t == s' + [c] + t' && c !in t && c !in t'
    ensures s == s' && t == t'
  {
    var u := s + [c] + t;
    assert u[|s|] == c && u[|s'|] == c;
    assert forall k :: |s| < k < |u| ==> u[k] == t[k - |s| - 1];
    assert forall k :: |s'| < k < |u| ==> u[k] == t'[k - |s'| - 1];
    assert |s| == |s'|;
    assert s == u[..|s|] && s' == u[..|s|];
    assert t == u[|s| + 1..] && t' == u[|s| + 1..];
  }

  /** Different topics or partitions never share an entry of the assignment map. */
  lemma NameInjective(t: string, p: int, t': string, p': int)
    requires Name(t, p) == Name(t', p')
    ensures t == t' && p == p'
  {
    SignedHasNo('.', p);
    SignedHasNo('.', p');
    SplitsAtLast(t, Signed(p), t', Signed(p'), '.');
    SignedInjective(p, p');
  }

  /** A key taken apart at its last dot is the topic and the decimal number. */
  lemma NameSplits(topic: string, partition: int, k: nat)
    requires k < |Name(topic, partition)| && Name(topic, partition)[k] == '.'
    requires forall i :: k < i < |Name(topic, partition)| ==> Name(topic, partition)[i] != '.'
    ensures Name(topic, partition)[..k] == topic && Name(topic, partition)[k + 1..] == Signed(partition)
  {
    var s := Name(topic, partition);
    SignedHasNo('.', partition);
    assert s == s[..k] + ['.'] + s[k + 1..];
    assert '.' !in s[k + 1..];
    hide Signed;
    SplitsAtLast(s[..k], s[k + 1..], topic, Signed(partition), '.');
  }

  const ID_PREFIX := "librdkafka_transactions_older_example_"

  /** The transactional id before it is cut to its buffer. */
  function FullId(topic: string, partition: int): string {
    ID_PREFIX + topic + "-" + Signed(partition)
  }

  /** The transactional id `create_transactional_producer` configures; its buffer
      holds 255 characters. */
  function TransactionalId(topic: string, partition: int): string {
    Cut(FullId(topic, partition))
  }

  lemma FullIdSplits(t: string, m: nat, t': string, m': nat)
    requires FullId(t, m) == FullId(t', m')
    ensures t == t' && m == m'
  {
    var s, s' := ID_PREFIX + t, ID_PREFIX + t';
    assert '-' !in Numeral(m) && '-' !in Numeral(m');
    SplitsAtLast(s, Numeral(m), s', Numeral(m'), '-');
    assert s[|ID_PREFIX|..] == t && s'[|ID_PREFIX|..] == t';
    NumeralInjective(m, m');
  }

  /** A minus sign reads like one more character of the topic. */
  lemma NegativeId(t: string, p: int)
    requires p < 0
    ensures FullId(t, p) == FullId(t + "-", -p)
  {
    assert ID_PREFIX + t + "-" + ("-" + Numeral(-p)) == ID_PREFIX + (t + "-") + "-" + Numeral(-p);
  }

  /** Ids that fit their buffer clash only through a negative partition number. */
  lemma FittingIdsClashIff(t: string, p: int, t': string, p': int)
    requires |FullId(t, p)| <= 255 && |FullId(t', p')| <= 255
    ensures TransactionalId(t, p) == TransactionalId(t', p') <==>
            || (t == t' && p == p')
            || (p < 0 && p' == -p && t' == t + "-")
            || (p' < 0 && p == -p' && t == t' + "-")
  {
    hide FullId;
    PlainId(t, p);
    PlainId(t', p');
    if FullId(t, p) == FullId(t', p') {
      FullIdSplits(PlainTopic(t, p), Magnitude(p), PlainTopic(t', p'), Magnitude(p'));
    }
    PlainClashIff(t, p, t', p');
  }

  /** The topic and the number as the id shows them: a minus sign reads like one more
      character of the topic. */
  function PlainTopic(t: string, p: int): string {
    if p < 0 then t + "-" else t
  }

  function Magnitude(p: int): nat {
    if p < 0 then -p else p
  }

  lemma PlainId(t: string, p: int)
    ensures FullId(t, p) == FullId(PlainTopic(t, p), Magnitude(p))
  {
    if p < 0 { NegativeId(t, p); }
  }

  lemma PlainClashIff(t: string, p: int, t': string, p': int)
    ensures PlainTopic(t, p) == PlainTopic(t', p') && Magnitude(p) == Magnitude(p') <==>
            || (t == t' && p == p')
            || (p < 0 && p' == -p && t' == t + "-")
            || (p' < 0 && p == -p' && t == t' + "-")
  {
    if p < 0 && p' < 0 && PlainTopic(t, p) == PlainTopic(t', p') {
      assert PlainTopic(t, p)[..|t|] == t && PlainTopic(t', p')[..|t'|] == t';
    }
  }

  lemma {:induction false} NumeralMonotone(m: nat, n: nat)
    requires m <= n
    ensures |Numeral(m)| <= |Numeral(n)|
  {
    if m >= 10 {
      NumeralMonotone(m / 10, n / 10);
    }
  }

  function Zeros(k: nat): string {
    if k == 0 then "" else Zeros(k - 1) + "0"
  }

  lemma {:induction false} PowerNumeral(k: nat)
    ensures Numeral(Pow10(k)) == "1" + Zeros(k) && |Zeros(k)| == k
  {
    if k > 0 {
      PowerNumeral(k - 1);
      assert Pow10(k) / 10 == Pow10(k - 1) && Pow10(k) % 10 == 0;
    }
  }

  lemma {:induction false} ZerosPrefix(j: nat, k: nat)
    requires j <= k
    ensures |Zeros(k)| == k && Zeros(k)[..j] == Zeros(j)
  {
    if k > 0 {
      if j < k {
        ZerosPrefix(j, k - 1);
        assert Zeros(k)[..j] == Zeros(k - 1)[..j];
      } else {
        ZerosPrefix(k - 1, k - 1);
      }
    }
  }

  lemma {:induction false} PowerBelow(n: nat)
    ensures Pow10(|Numeral(n)| - 1) <= n || n == 0
  {
    if n >= 10 {
      PowerBelow(n / 10);
    }
  }

  lemma PowerGrows(j: nat, k: nat)
    requires j < k
    ensures Pow10(j) < Pow10(k)
  {
  }

  /** The numeral of a power of ten begins with those of the smaller ones. */
  lemma PowerPrefix(j: nat, k: nat)
    requires j <= k
    ensures |Numeral(Pow10(j))| == j + 1 && |Numeral(Pow10(k))| == k + 1
    ensures Numeral(Pow10(k))[..j + 1] == Numeral(Pow10(j))[..j + 1]
  {
    hide Numeral, Zeros;
    PowerNumeral(j);
    PowerNumeral(k);
    ZerosPrefix(j, k);
    assert ("1" + Zeros(k))[..j + 1] == "1" + Zeros(k)[..j];
    assert ("1" + Zeros(j))[..j + 1] == "1" + Zeros(j);
  }

  lemma CutOfLong(s: string, m: string, m': string, room: nat)
    requires |s| + room == 255 && room <= |m| && room <= |m'| && m[..room] == m'[..room]
    ensures Cut(s + m) == Cut(s + m')
  {
    assert (s + m)[..255] == s + m[..room];
    assert (s + m')[..255] == s + m'[..room];
    assert |s + m| == 255 ==> s + m == (s + m)[..255];
    assert |s + m'| == 255 ==> s + m' == (s + m')[..255];
  }

  /** When the last of n partitions does not fit, two of them share an id. */
  lemma TooLongClashes(topic: string, n: nat) returns (p: nat, q: nat)
    requires n >= 2 && |FullId(topic, n - 1)| > 255
    ensures p < q < n && TransactionalId(topic, p) == TransactionalId(topic, q)
  {
    var s := ID_PREFIX + topic + "-";
    var k := |Numeral(n - 1)|;
    if |s| >= 255 {
      p, q := 0, 1;
      assert (s + Signed(p))[..255] == s[..255] && (s + Signed(q))[..255] == s[..255];
    } else {
      var room := 255 - |s|;
      p, q := Pow10(room - 1), Pow10(k - 1);
      PowerGrows(room - 1, k - 1);
      PowerBelow(n - 1);
      PowerPrefix(room - 1, k - 1);
      CutOfLong(s, Numeral(p), Numeral(q), room);
    }
  }

  /** The n partitions of a topic get n different ids exactly when the id of the last
      one fits the buffer. */
  lemma IdsDistinctIffLastFits(topic: string, n: nat)
    requires n >= 2
    ensures (forall p: nat, q: nat :: p < q < n ==> TransactionalId(topic, p) != TransactionalId(topic, q))
            <==> |FullId(topic, n - 1)| <= 255
  {
    if |FullId(topic, n - 1)| <= 255 {
      forall p: nat, q: nat | p < q < n
        ensures TransactionalId(topic, p) != TransactionalId(topic, q)
      {
        NumeralMonotone(p, n - 1);
        NumeralMonotone(q, n - 1);
        if FullId(topic, p) == FullId(topic, q) {
          FullIdSplits(topic, p, topic, q);
        }
      }
    } else {
      var p, q := TooLongClashes(topic, n);
    }
  }

  /** Topics of up to 206 characters are safe for every 32-bit partition number. */
  lemma ShortTopicsAreSafe(topic: string, n: nat)
    requires |topic| <= 206 && 2 <= n <= 0x8000_0000
    ensures |FullId(topic, n - 1)| <= 255
  {
    assert Pow10(10) == 10_000_000_000 by {
      assert Pow10(1) == 10 && Pow10(2) == 100 && Pow10(3) == 1000 && Pow10(4) == 10_000 && Pow10(5) == 100_000;
      assert Pow10(6) == 1_000_000 && Pow10(7) == 10_000_000 && Pow10(8) == 100_000_000 && Pow10(9) == 1_000_000_000;
    }
    NumeralLength(n - 1, 10);
  }
}
