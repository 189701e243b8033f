/** Output records with their origin, and the outputs a stretch of an input
    partition must give: what both transactional examples are measured against. */
module OutputStream {
  import opened MessageFunction

  type Partition = nat

  /** What a message is turned into, if anything. The protocol does not depend on
      which function this is. */
  type Transform = Record -> Option<Output>

  /** An output record together with the input message it was computed from. */
  datatype Entry = Entry(part: Partition, offset: nat, out: Output)

  function Tagged(f: Transform, p: Partition, offset: nat, r: Record): seq<Entry> {
    match f(r)
    case None => []
    case Some(out) => [Entry(p, offset, out)]
  }

  /** The outputs of messages lo..hi of a partition, in order: the message function
      mapped over that stretch of the input. */
  function Expected(f: Transform, log: seq<Record>, p: Partition, lo: nat, hi: nat): seq<Entry>
    requires hi <= |log|
  {
    if hi <= lo then [] else Expected(f, log, p, lo, hi - 1) + Tagged(f, p, hi - 1, log[hi - 1])
  }

  /** The entries that come from one input partition. */
  function Share(es: seq<Entry>, p: Partition): seq<Entry> {
    if es == [] then []
    else Share(es[..|es| - 1], p) + if es[|es| - 1].part == p then [es[|es| - 1]] else []
  }

  lemma {:induction false} ShareConcat(a: seq<Entry>, b: seq<Entry>, p: Partition)
    ensures Share(a + b, p) == Share(a, p) + Share(b, p)
  {
    if b == [] {
      assert a + b == a;
    } else {
      var front := b[..|b| - 1];
      assert (a + b)[..|a + b| - 1] == a + front;
      ShareConcat(a, front, p);
    }
  }

  lemma {:induction false} ShareOfAbsent(es: seq<Entry>, p: Partition)
    requires forall e :: e in es ==> e.part != p
    ensures Share(es, p) == []
  {
    if es != [] {
      ShareOfAbsent(es[..|es| - 1], p);
    }
  }

  lemma {:induction false} ShareOfOwn(es: seq<Entry>, p: Partition)
    requires forall e :: e in es ==> e.part == p
    ensures Share(es, p) == es
  {
    if es != [] {
      ShareOfOwn(es[..|es| - 1], p);
      assert es == es[..|es| - 1] + [es[|es| - 1]];
    }
  }

  lemma {:induction false} ExpectedParts(f: Transform, log: seq<Record>, p: Partition, lo: nat, hi: nat)
    requires hi <= |log|
    ensures forall e :: e in Expected(f, log, p, lo, hi) ==> e.part == p && lo <= e.offset < hi
  {
    if lo < hi { ExpectedParts(f, log, p, lo, hi - 1); }
  }

  /** The output of every message of the stretch is there. */
  lemma {:induction false} ExpectedHas(f: Transform, log: seq<Record>, p: Partition, lo: nat, hi: nat, offset: nat)
    requires lo <= offset < hi <= |log| && f(log[offset]).Some?
    ensures Entry(p, offset, f(log[offset]).value) in Expected(f, log, p, lo, hi)
  {
    if offset < hi - 1 { ExpectedHas(f, log, p, lo, hi - 1, offset); }
  }

  lemma {:induction false} ExpectedSplit(f: Transform, log: seq<Record>, p: Partition, lo: nat, mid: nat, hi: nat)
    requires lo <= mid <= hi <= |log|
    ensures Expected(f, log, p, lo, mid) + Expected(f, log, p, mid, hi) == Expected(f, log, p, lo, hi)
  {
    if mid < hi {
      ExpectedSplit(f, log, p, lo, mid, hi - 1);
      var a, b, c := Expected(f, log, p, lo, mid), Expected(f, log, p, mid, hi - 1), Tagged(f, p, hi - 1, log[hi - 1]);
      assert a + (b + c) == a + b + c;
    }
  }

  lemma {:induction false} ExpectedOfLongerLog(f: Transform, log: seq<Record>, r: Record, p: Partition, lo: nat, hi: nat)
    requires hi <= |log|
    ensures Expected(f, log + [r], p, lo, hi) == Expected(f, log, p, lo, hi)
  {
    if lo < hi { ExpectedOfLongerLog(f, log, r, p, lo, hi - 1); }
  }

  lemma {:induction false} ShareAfterProduce(pending: seq<Entry>, es: seq<Entry>, p: Partition, q: Partition)
    requires forall e :: e in es ==> e.part == p
    ensures Share(pending + es, q) == if q == p then Share(pending, q) + es else Share(pending, q)
  {
    ShareConcat(pending, es, q);
    if q == p {
      ShareOfOwn(es, p);
    } else {
      ShareOfAbsent(es, q);
    }
  }

  /** Extending an output that is right up to some offset by what the messages after
      it give. */
  lemma ExpectedExtends(f: Transform, log: seq<Record>, p: Partition, output: seq<Entry>, start: nat, end: nat, q: Partition)
    requires start <= end <= |log|
    ensures Share(output + Expected(f, log, p, start, end), q)
            == if q == p then Share(output, q) + Expected(f, log, p, start, end) else Share(output, q)
  {
    ExpectedParts(f, log, p, start, end);
    ShareAfterProduce(output, Expected(f, log, p, start, end), p, q);
  }

  /** An output that is right from one offset to another, extended by what the messages
      after that give, is right up to where they end. */
  lemma ExtendsTo(f: Transform, log: seq<Record>, p: Partition, output: seq<Entry>, base: nat, start: nat, end: nat)
    requires base <= start <= end <= |log| && Share(output, p) == Expected(f, log, p, base, start)
    ensures Share(output + Expected(f, log, p, start, end), p) == Expected(f, log, p, base, end)
  {
    ExpectedExtends(f, log, p, output, start, end, p);
    ExpectedSplit(f, log, p, base, start, end);
  }

  lemma {:induction false} ShareMembers(es: seq<Entry>, p: Partition, e: Entry)
    requires e in Share(es, p)
    ensures e in es && e.part == p
  {
    if e !in Share(es[..|es| - 1], p) {
    } else {
      ShareMembers(es[..|es| - 1], p, e);
    }
  }

  /** Outputs of one partition come in the order of their input, each once. */
  ghost predicate InOrder(es: seq<Entry>) {
    forall i, j :: 0 <= i < j < |es| && es[i].part == es[j].part ==> es[i].offset < es[j].offset
  }

  lemma InOrderConcat(a: seq<Entry>, b: seq<Entry>)
    requires InOrder(a) && InOrder(b)
    requires forall x, y :: x in a && y in b && x.part == y.part ==> x.offset < y.offset
    ensures InOrder(a + b)
  {
  }

  lemma {:induction false} ExpectedInOrder(f: Transform, log: seq<Record>, p: Partition, lo: nat, hi: nat)
    requires hi <= |log|
    ensures InOrder(Expected(f, log, p, lo, hi))
    ensures forall e :: e in Expected(f, log, p, lo, hi) ==> e.part == p && lo <= e.offset < hi && f(log[e.offset]) == Some(e.out)
  {
    if lo < hi {
      ExpectedInOrder(f, log, p, lo, hi - 1);
      InOrderConcat(Expected(f, log, p, lo, hi - 1), Tagged(f, p, hi - 1, log[hi - 1]));
    }
  }

  /** An entry stands in the share of its partition after those of that partition that
      come before it. */
  lemma {:induction false} ShareAt(es: seq<Entry>, i: nat)
    requires i < |es|
    ensures var p := es[i].part;
            |Share(es[..i], p)| < |Share(es, p)| && Share(es, p)[|Share(es[..i], p)|] == es[i]
  {
    var p := es[i].part;
    assert es == es[..i] + es[i..];
    ShareConcat(es[..i], es[i..], p);
    assert es[i..] == [es[i]] + es[i + 1..];
    ShareConcat([es[i]], es[i + 1..], p);
    assert Share([es[i]], p) == [es[i]];
  }

  /** If the share of every partition is in order, no entry comes twice. */
  lemma OrderedSharesHaveNoDuplicates(es: seq<Entry>, i: nat, j: nat)
    requires i < j < |es| && es[i].part == es[j].part && InOrder(Share(es, es[i].part))
    ensures es[i].offset < es[j].offset
  {
    var p := es[i].part;
    ShareAt(es, i);
    ShareAt(es, j);
    ShareAt(es[..j], i);
    assert es[..j][..i] == es[..i];
  }
}
