/** Partition lists between C++ and C (src-cpp/HandleImpl.cpp): converting both ways, and
    writing what a C call returned back to the application's objects. */
module PartitionList {
  import opened CText

  /** `rd_kafka_topic_partition_t`; an epoch of -1 stands for none. */
  datatype CPart = CPart(topic: string, partition: int, offset: int, err: int, leaderEpoch: int, metadata: seq<bv8>)

  /** The contents of a `TopicPartitionImpl`. */
  datatype Fields = Fields(topic: string, partition: int, offset: int, err: int, leaderEpoch: int, metadata: seq<bv8>)

  /** `TopicPartitionImpl` */
  class TopicPartition {
    const topic: string
    const partition: int
    var offset: int
    var err: int
    var leaderEpoch: int
    var metadata: seq<bv8>

    /** From a C partition. */
    constructor (p: CPart)
      ensures Contents() == FromC(p)
    {
      topic, partition, offset, err, leaderEpoch := p.topic, p.partition, p.offset, p.err, p.leaderEpoch;
      metadata := if |p.metadata| > 0 then p.metadata else [];
    }

    function Contents(): Fields
      reads this
    {
      Fields(topic, partition, offset, err, leaderEpoch, metadata)
    }
  }

  // ----- converting -----

  function FromC(p: CPart): Fields {
    Fields(p.topic, p.partition, p.offset, p.err, p.leaderEpoch, p.metadata)
  }

  function ToC(f: Fields): CPart {
    CPart(CString(f.topic), f.partition, f.offset, 0, f.leaderEpoch, f.metadata)
  }

  /** To C and back gives the same entry with the error reset, exactly if the topic is a
      C string. */
  lemma RoundTripIff(f: Fields)
    ensures FromC(ToC(f)) == f.(err := 0) <==> NUL !in f.topic
  {
  }

  lemma RoundTripOfC(p: CPart)
    requires NUL !in p.topic
    ensures ToC(FromC(p)) == p.(err := 0)
  {
  }

  /** Nothing of a C element is lost: two that differ in any field, the error included, give
      different entries. */
  lemma FromCInjective(p: CPart, q: CPart)
    requires FromC(p) == FromC(q)
    ensures p == q
  {
  }

  function AllToC(fs: seq<Fields>): seq<CPart> {
    seq(|fs|, i requires 0 <= i < |fs| => ToC(fs[i]))
  }

  /** `rd_kafka_topic_partition_list_add` */
  function NewCPart(topic: string, partition: int): CPart {
    CPart(topic, partition, -1001, 0, -1, [])
  }

  function ContentsOf(ps: seq<TopicPartition>): seq<Fields>
    reads ps
  {
    seq(|ps|, i requires 0 <= i < |ps| reads ps => ps[i].Contents())
  }

  /** `partitions_to_c_parts` */
  method PartitionsToCParts(partitions: seq<TopicPartition>) returns (cParts: seq<CPart>)
    ensures cParts == AllToC(ContentsOf(partitions))
    ensures |cParts| == |partitions|
    ensures forall i :: 0 <= i < |cParts| ==>
              && cParts[i].topic == CString(partitions[i].topic) && cParts[i].partition == partitions[i].partition
              && cParts[i].offset == partitions[i].offset && cParts[i].leaderEpoch == partitions[i].leaderEpoch
              && cParts[i].metadata == partitions[i].metadata && cParts[i].err == 0
  {
    cParts := [];
    for i := 0 to |partitions|
      invariant |cParts| == i
      invariant forall k :: 0 <= k < i ==> cParts[k] == ToC(partitions[k].Contents())
    {
      var tpi := partitions[i];
      var rktpar := NewCPart(CString(tpi.topic), tpi.partition);
      rktpar := rktpar.(offset := tpi.offset);
      if |tpi.metadata| > 0 {
        rktpar := rktpar.(metadata := tpi.metadata);
      }
      if tpi.leaderEpoch != -1 {
        rktpar := rktpar.(leaderEpoch := tpi.leaderEpoch);
      }
      cParts := cParts + [rktpar];
    }
  }

  /** `c_parts_to_partitions` */
  method CPartsToPartitions(cParts: seq<CPart>) returns (partitions: seq<TopicPartition>)
    ensures |partitions| == |cParts|
    ensures forall i :: 0 <= i < |partitions| ==> fresh(partitions[i]) && partitions[i].Contents() == FromC(cParts[i])
    ensures forall i, j :: 0 <= i < j < |partitions| ==> partitions[i] != partitions[j]
    ensures forall i :: 0 <= i < |partitions| ==>
              && partitions[i].topic == cParts[i].topic && partitions[i].partition == cParts[i].partition
              && partitions[i].offset == cParts[i].offset && partitions[i].err == cParts[i].err
              && partitions[i].leaderEpoch == cParts[i].leaderEpoch && partitions[i].metadata == cParts[i].metadata
  {
    partitions := [];
    for i := 0 to |cParts|
      invariant |partitions| == i
      invariant forall k :: 0 <= k < i ==> fresh(partitions[k]) && partitions[k].Contents() == FromC(cParts[k])
      invariant forall k, l :: 0 <= k < l < i ==> partitions[k] != partitions[l]
    {
      var p := new TopicPartition(cParts[i]);
      partitions := partitions + [p];
    }
  }

  // ----- writing back -----

  /** The C element is about the entry. */
  predicate Matches(f: Fields, p: CPart) {
    p.topic == CString(f.topic) && p.partition == f.partition
  }

  /** The last element about the entry, or -1. */
  function LastMatch(f: Fields, ps: seq<CPart>): (k: int)
    ensures -1 <= k < |ps|
    ensures k >= 0 ==> Matches(f, ps[k])
    ensures forall i :: k < i < |ps| ==> !Matches(f, ps[i])
  {
    if ps == [] then -1
    else if Matches(f, ps[|ps| - 1]) then |ps| - 1
    else LastMatch(f, ps[..|ps| - 1])
  }

  /** The last element about the entry that has metadata, or -1. */
  function LastMetadata(f: Fields, ps: seq<CPart>): (k: int)
    ensures -1 <= k < |ps|
    ensures k >= 0 ==> Matches(f, ps[k]) && ps[k].metadata != []
    ensures forall i :: k < i < |ps| ==> !(Matches(f, ps[i]) && ps[i].metadata != [])
  {
    if ps == [] then -1
    else if Matches(f, ps[|ps| - 1]) && ps[|ps| - 1].metadata != [] then |ps| - 1
    else LastMetadata(f, ps[..|ps| - 1])
  }

  /** An entry after write-back: the last match wins, and metadata come from the last
      match that has any. */
  function Updated(f: Fields, ps: seq<CPart>): Fields {
    var k, m := LastMatch(f, ps), LastMetadata(f, ps);
    if k == -1 then f
    else f.(offset := ps[k].offset, err := ps[k].err, leaderEpoch := ps[k].leaderEpoch,
            metadata := if m == -1 then f.metadata else ps[m].metadata)
  }

  /** The searches depend on the key of the entry only. */
  lemma {:induction false} SameKeySameMatch(f: Fields, g: Fields, ps: seq<CPart>)
    requires f.topic == g.topic && f.partition == g.partition
    ensures LastMatch(f, ps) == LastMatch(g, ps) && LastMetadata(f, ps) == LastMetadata(g, ps)
  {
    if ps != [] {
      SameKeySameMatch(f, g, ps[..|ps| - 1]);
    }
  }

  /** One more element. */
  lemma UpdatedStep(f: Fields, ps: seq<CPart>, p: CPart)
    ensures var g := Updated(f, ps);
            Updated(f, ps + [p]) ==
            if Matches(f, p) then g.(offset := p.offset, err := p.err, leaderEpoch := p.leaderEpoch,
                                     metadata := if p.metadata != [] then p.metadata else g.metadata)
            else g
  {
    var qs := ps + [p];
    assert qs[..|ps|] == ps;
    var m := LastMetadata(f, ps);
    assert m <= LastMatch(f, ps);
  }

  /** Writing back twice is writing back once. */
  lemma Idempotent(f: Fields, ps: seq<CPart>)
    ensures Updated(Updated(f, ps), ps) == Updated(f, ps)
  {
    SameKeySameMatch(f, Updated(f, ps), ps);
  }

  predicate DistinctKeys(fs: seq<Fields>) {
    forall i, j :: 0 <= i < j < |fs| ==> CString(fs[i].topic) != CString(fs[j].topic) || fs[i].partition != fs[j].partition
  }

  /** Writing back the unchanged C list of a vector without duplicates only resets the
      errors. */
  lemma WriteBackOfOwnList(fs: seq<Fields>, i: nat)
    requires i < |fs| && DistinctKeys(fs)
    ensures Updated(fs[i], AllToC(fs)) == fs[i].(err := 0)
  {
    var ps, f := AllToC(fs), fs[i];
    assert Matches(f, ps[i]);
    assert forall j :: 0 <= j < |fs| && Matches(f, ps[j]) ==> j == i;
    assert LastMatch(f, ps) == i;
    assert LastMetadata(f, ps) == if f.metadata != [] then i else -1;
  }

  /** With duplicates, the last entry of a key decides. */
  lemma DuplicatesFollowTheLast(fs: seq<Fields>, i: nat, j: nat)
    requires i < |fs| && j < |fs| && CString(fs[j].topic) == CString(fs[i].topic) && fs[j].partition == fs[i].partition
    requires forall k :: j < k < |fs| ==> CString(fs[k].topic) != CString(fs[i].topic) || fs[k].partition != fs[i].partition
    ensures Updated(fs[i], AllToC(fs)).offset == fs[j].offset
    ensures Updated(fs[i], AllToC(fs)).leaderEpoch == fs[j].leaderEpoch
  {
    var ps := AllToC(fs);
    assert Matches(fs[i], ps[j]);
    assert forall k :: j < k < |fs| ==> !Matches(fs[i], ps[k]);
    assert LastMatch(fs[i], ps) == j;
  }

  /** Writing a C list back to the entries made from it changes nothing, if its keys are
      distinct. */
  lemma WriteBackOfOwnElements(ps: seq<CPart>, i: nat)
    requires i < |ps| && NUL !in ps[i].topic
    requires forall j :: 0 <= j < |ps| && j != i ==> ps[j].topic != ps[i].topic || ps[j].partition != ps[i].partition
    ensures Updated(FromC(ps[i]), ps) == FromC(ps[i])
  {
    var f := FromC(ps[i]);
    assert Matches(f, ps[i]);
    assert forall j :: 0 <= j < |ps| && Matches(f, ps[j]) ==> j == i;
    assert LastMatch(f, ps) == i;
  }

  /** The element is about the object, and none after it is. */
  predicate LastAbout(topic: string, partition: int, ps: seq<CPart>, k: int) {
    && 0 <= k < |ps| && ps[k].topic == CString(topic) && ps[k].partition == partition
    && forall j :: k < j < |ps| ==> ps[j].topic != CString(topic) || ps[j].partition != partition
  }

  /** The element is the last one about the object that has metadata. */
  predicate LastWithMetadata(topic: string, partition: int, ps: seq<CPart>, k: int) {
    && 0 <= k < |ps| && ps[k].topic == CString(topic) && ps[k].partition == partition && ps[k].metadata != []
    && forall j :: k < j < |ps| ==> ps[j].topic != CString(topic) || ps[j].partition != partition || ps[j].metadata == []
  }

  /** What write-back does, field by field: offset, error and epoch are those of the last
      element about the entry, metadata those of the last one that has any, and an entry no
      element is about is as it was. */
  lemma UpdatedIs(f: Fields, ps: seq<CPart>)
    ensures var g := Updated(f, ps);
            && g.topic == f.topic && g.partition == f.partition
            && (forall k :: LastAbout(f.topic, f.partition, ps, k) ==>
                  g.offset == ps[k].offset && g.err == ps[k].err && g.leaderEpoch == ps[k].leaderEpoch)
            && (forall k :: LastWithMetadata(f.topic, f.partition, ps, k) ==> g.metadata == ps[k].metadata)
            && ((forall k :: 0 <= k < |ps| ==> ps[k].topic != CString(f.topic) || ps[k].partition != f.partition) ==> g == f)
            && ((forall k :: 0 <= k < |ps| ==> ps[k].topic != CString(f.topic) || ps[k].partition != f.partition || ps[k].metadata == [])
                ==> g.metadata == f.metadata)
  {
    var k, m := LastMatch(f, ps), LastMetadata(f, ps);
    assert k >= 0 ==> Matches(f, ps[k]);
    assert m >= 0 ==> Matches(f, ps[m]);
    forall j | LastAbout(f.topic, f.partition, ps, j)
      ensures j == k
    {
      assert Matches(f, ps[j]);
    }
    forall j | LastWithMetadata(f.topic, f.partition, ps, j)
      ensures j == m && k >= 0
    {
      assert Matches(f, ps[j]) && ps[j].metadata != [];
    }
  }

  /** The assignments in the inner loop. */
  method Assign(pp: TopicPartition, p: CPart, ghost start: Fields, ghost ps: seq<CPart>)
    requires pp.Contents() == Updated(start, ps) || pp.Contents() == Updated(start, ps + [p])
    modifies pp
    ensures pp.Contents() == Updated(start, ps + [p])
  {
    UpdatedStep(start, ps, p);
    if p.topic == CString(pp.topic) && p.partition == pp.partition {
      pp.offset := p.offset;
      pp.err := p.err;
      pp.leaderEpoch := p.leaderEpoch;
      if |p.metadata| > 0 {
        pp.metadata := p.metadata;
      }
    }
  }

  /** Every object is as its start, written back from the elements given. */
  ghost predicate AllUpdated(partitions: seq<TopicPartition>, starts: map<TopicPartition, Fields>, ps: seq<CPart>)
    reads partitions
  {
    forall o :: o in partitions ==> o in starts && o.Contents() == Updated(starts[o], ps)
  }

  /** The inner loop: one C element is written to all objects of its key. */
  method WriteElement(partitions: seq<TopicPartition>, p: CPart, ghost starts: map<TopicPartition, Fields>, ghost ps: seq<CPart>)
    requires AllUpdated(partitions, starts, ps)
    modifies partitions
    ensures AllUpdated(partitions, starts, ps + [p])
  {
    hide Updated;
    for j := 0 to |partitions|
      invariant forall o :: o in partitions ==>
                  || o.Contents() == Updated(starts[o], ps + [p])
                  || (o !in partitions[..j] && o.Contents() == Updated(starts[o], ps))
    {
      Assign(partitions[j], p, starts[partitions[j]], ps);
    }
  }

  /** `update_partitions_from_c_parts`: every object of the vector, even one that is in it
      several times, ends up as the specification says. */
  method UpdatePartitionsFromCParts(partitions: seq<TopicPartition>, cParts: seq<CPart>)
    modifies partitions
    ensures forall o :: o in partitions ==> o.Contents() == Updated(old(o.Contents()), cParts)
    ensures forall o, k :: o in partitions && LastAbout(o.topic, o.partition, cParts, k) ==>
              o.offset == cParts[k].offset && o.err == cParts[k].err && o.leaderEpoch == cParts[k].leaderEpoch
    ensures forall o, k :: o in partitions && LastWithMetadata(o.topic, o.partition, cParts, k) ==> o.metadata == cParts[k].metadata
  {
    ghost var starts := map o | o in partitions :: o.Contents();
    for i := 0 to |cParts|
      invariant AllUpdated(partitions, starts, cParts[..i])
    {
      assert cParts[..i + 1] == cParts[..i] + [cParts[i]];
      WriteElement(partitions, cParts[i], starts, cParts[..i]);
    }
    assert cParts[..|cParts|] == cParts;
    forall o | o in partitions { UpdatedIs(starts[o], cParts); }
  }
}
