/** What every run of the one-producer-per-partition example satisfies without any
    condition: no output is committed twice or made up, whatever fails and whenever seeks
    take effect. */
module OlderBrokerSafety {
  import opened MessageFunction
  import opened OutputStream
  import opened OlderBroker
  import opened OlderBrokerProofs

  /** The entry is the output of the message it names. */
  ghost predicate Genuine(w: World, e: Entry) {
    e.offset < |Log(w, e.part)| && w.process(Log(w, e.part)[e.offset]) == Some(e.out)
  }

  /** What is committed of a partition is in order, genuine, and below the committed offset. */
  ghost predicate CommittedSound(w: World, p: Partition) {
    && InOrder(Share(w.brokers.output, p))
    && forall e :: e in Share(w.brokers.output, p) ==>
         e.part == p && Genuine(w, e) && p in w.brokers.committed && e.offset < w.brokers.committed[p]
  }

  /** Everything committed of the partition is below the offset. */
  ghost predicate Below(w: World, p: Partition, n: nat) {
    forall e :: e in Share(w.brokers.output, p) ==> e.offset < n
  }

  /** What is pending comes after what is committed, and so does the position. */
  ghost predicate PendingSound(w: World, p: Partition)
    requires p in w.parts
  {
    var part := w.parts[p];
    && InOrder(part.producer.pending)
    && (forall e :: e in part.producer.pending ==> e.part == p && Genuine(w, e) && part.origin <= e.offset < part.cursor)
    && Below(w, p, part.origin)
    && (part.position.Some? ==> Below(w, p, part.position.value))
  }

  ghost predicate SoundAt(w: World, p: Partition) {
    CommittedSound(w, p) && (p in w.parts && p in w.brokers.owned ==> PendingSound(w, p))
  }

  ghost predicate Sound(w: World) {
    forall p :: SoundAt(w, p)
  }

  // ----- one partition -----

  /** A turn of p leaves the other partitions as they were. */
  lemma OthersStaySound(w: World, t: World, p: Partition, q: Partition)
    requires OnlyTouches(w, t, p) && q != p && SoundAt(w, q)
    ensures SoundAt(t, q)
  {
    assert SameCommitted(w, t, q);
    assert Log(t, q) == Log(w, q);
    if Running(t) {
      assert SamePart(w, t, q);
    }
  }

  /** What is committed is the same. */
  ghost predicate Unchanged(w: World, t: World) {
    && t.process == w.process && t.brokers.log == w.brokers.log
    && t.brokers.output == w.brokers.output && t.brokers.committed == w.brokers.committed
  }

  lemma UnchangedIsSound(w: World, t: World, p: Partition)
    requires Unchanged(w, t) && CommittedSound(w, p)
    ensures CommittedSound(t, p)
    ensures forall n: nat :: Below(t, p, n) <==> Below(w, p, n)
  {
    assert Log(t, p) == Log(w, p);
  }

  /** The same transaction at the same place, with the same position or none. */
  lemma SameTransactionIsSound(w: World, t: World, p: Partition)
    requires SoundAt(w, p) && Unchanged(w, t) && t.brokers.owned <= w.brokers.owned && p in w.parts && p in t.parts
    requires t.parts[p].producer.pending == w.parts[p].producer.pending
    requires t.parts[p].cursor == w.parts[p].cursor && t.parts[p].origin == w.parts[p].origin
    requires t.parts[p].position == w.parts[p].position || t.parts[p].position == None
    ensures SoundAt(t, p)
  {
    UnchangedIsSound(w, t, p);
    assert Log(t, p) == Log(w, p);
  }

  /** Rolling back and rewinding: nothing is pending, and reading goes on at the
      committed offset, or at the beginning when nothing is committed. */
  lemma RewindIsSound(w: World, p: Partition, o: Calls)
    requires Running(w) && MidShape(w, p) && SoundAt(w, p)
    ensures SoundAt(AbortAndRewind(w, p, o), p)
  {
    var t := AbortAndRewind(w, p, o);
    RewindKeepsMid(w, p, o);
    UnchangedIsSound(w, t, p);
    assert Below(t, p, RewindTarget(w, p));
  }

  lemma AcceptedIsSound(w: World, p: Partition, reports: seq<bool>, accepted: bool, o: Calls)
    requires Running(w) && MidShape(w, p) && w.parts[p].cursor < |Log(w, p)| && SoundAt(w, p) && !Rejected(w, p, reports, accepted)
    ensures SoundAt(Processed(w, p, reports, accepted, o), p)
  {
    var t := Processed(w, p, reports, accepted, o);
    AcceptedTurn(w, p, reports, accepted, o);
    UnchangedIsSound(w, t, p);
    assert Log(t, p) == Log(w, p);
    if p in w.brokers.owned {
      var n := w.parts[p].cursor;
      InOrderConcat(w.parts[p].producer.pending, Tagged(w.process, p, n, Log(w, p)[n]));
      assert Below(w, p, w.parts[p].origin);
    }
  }

  lemma RejectedIsSound(w: World, p: Partition, reports: seq<bool>, accepted: bool, o: Calls)
    requires Running(w) && MidShape(w, p) && w.parts[p].cursor < |Log(w, p)| && SoundAt(w, p) && Rejected(w, p, reports, accepted)
    ensures SoundAt(Processed(w, p, reports, accepted, o), p)
  {
    var t := Processed(w, p, reports, accepted, o);
    RejectedTurn(w, p, reports, accepted, o);
    UnchangedIsSound(w, t, p);
    if Running(t) && p in w.brokers.owned {
      assert Below(w, p, w.parts[p].origin);
      assert Below(t, p, RewindTarget(w, p));
      assert Below(t, p, w.parts[p].cursor + 1);
    }
  }

  lemma ProcessedIsSound(w: World, p: Partition, reports: seq<bool>, accepted: bool, o: Calls)
    requires Running(w) && MidShape(w, p) && w.parts[p].cursor < |Log(w, p)| && SoundAt(w, p)
    ensures SoundAt(Processed(w, p, reports, accepted, o), p)
  {
    if Rejected(w, p, reports, accepted) {
      RejectedIsSound(w, p, reports, accepted, o);
    } else {
      AcceptedIsSound(w, p, reports, accepted, o);
    }
  }

  /** Where reading of the next transaction starts. */
  function NextOrigin(part: Part): nat {
    if part.position == Some(part.cursor) then part.cursor else part.origin
  }

  lemma PublishedShare(w: World, p: Partition)
    requires MidShape(w, p)
    ensures Share(Publish(w, p, w.parts[p].position).brokers.output, p) == Share(w.brokers.output, p) + w.parts[p].producer.pending
  {
    ShareConcat(w.brokers.output, w.parts[p].producer.pending, p);
    ShareOfOwn(w.parts[p].producer.pending, p);
  }

  /** Genuine output of messages lo..hi of a partition, in order. */
  ghost predicate Follows(w: World, p: Partition, more: seq<Entry>, lo: nat, hi: nat) {
    InOrder(more) && forall e :: e in more ==> e.part == p && Genuine(w, e) && lo <= e.offset < hi
  }

  /** More of a partition, after what there is of it. */
  lemma MoreIsSound(w: World, t: World, p: Partition, more: seq<Entry>, lo: nat, hi: nat)
    requires CommittedSound(w, p) && Below(w, p, lo) && Follows(w, p, more, lo, hi)
    requires t.process == w.process && t.brokers.log == w.brokers.log
    requires Share(t.brokers.output, p) == Share(w.brokers.output, p) + more
    requires p in w.brokers.committed || more != [] ==> p in t.brokers.committed
    requires p in t.brokers.committed ==> Below(w, p, t.brokers.committed[p]) && (more != [] ==> hi <= t.brokers.committed[p])
    ensures CommittedSound(t, p)
  {
    assert Log(t, p) == Log(w, p);
    InOrderConcat(Share(w.brokers.output, p), more);
  }

  /** Publishing appends what comes after all that was committed. */
  lemma PublishIsSound(w: World, p: Partition)
    requires Running(w) && MidShape(w, p) && SoundAt(w, p) && p in w.brokers.owned
    ensures var t := Publish(w, p, w.parts[p].position);
            CommittedSound(t, p) && Below(t, p, NextOrigin(w.parts[p]))
            && (w.parts[p].position.Some? ==> Below(t, p, w.parts[p].position.value))
  {
    var part := w.parts[p];
    var t := Publish(w, p, part.position);
    PublishedShare(w, p);
    if part.position.Some? {
      assert t.brokers.committed[p] == part.position.value;
    } else {
      assert part.producer.pending == [] && t.brokers.committed == w.brokers.committed;
    }
    MoreIsSound(w, t, p, part.producer.pending, part.origin, part.cursor);
  }

  lemma CommitIsSound(w: World, p: Partition, o: Calls, o': Calls)
    requires Running(w) && MidShape(w, p) && SoundAt(w, p)
    ensures SoundAt(CommitAndStartNew(w, p, o, o'), p)
  {
    hide Share, AbortAndRewind;
    if Publishes(w, p, o) {
      assert !MustRollBack(w, p, o);
      var u := Publish(w, p, w.parts[p].position);
      PublishIsSound(w, p);
      UnchangedIsSound(u, StartNext(u, p, o), p);
    } else if o.position && MustRollBack(w, p, o) {
      RewindIsSound(w, p, o');
    } else {
      UnchangedIsSound(w, Leave(w, false), p);
    }
  }

  lemma CountIsSound(w: World, p: Partition, now: int, later: int, o: Calls, o': Calls)
    requires Running(w) && MidShape(w, p) && SoundAt(w, p)
    ensures SoundAt(CountAndCommit(w, p, now, later, o, o'), p)
  {
    var w1 := Counted(w, p);
    CountedIsTheSame(w, p);
    SameTransactionIsSound(w, w1, p);
    if Due(w.parts[p], now) {
      var w2 := CommitAndStartNew(w1, p, o, o');
      CommitIsSound(w1, p, o, o');
      CommitKeepsMid(w1, p, o, o');
      if p in w2.parts {
        SameTransactionIsSound(w2, ResetCount(w2, p, later), p);
      }
    }
  }

  lemma MessageIsSound(w: World, p: Partition, now: int, later: int, reports: seq<bool>, accepted: bool, o1: Calls, o2: Calls, o3: Calls)
    requires Running(w) && MidShape(w, p) && w.parts[p].cursor < |Log(w, p)| && SoundAt(w, p)
    ensures SoundAt(HandleMessage(w, p, now, later, reports, accepted, o1, o2, o3), p)
  {
    hide Processed, CountAndCommit, SoundAt;
    var w1 := Processed(w, p, reports, accepted, o1);
    ProcessedKeepsMid(w, p, reports, accepted, o1);
    ProcessedIsSound(w, p, reports, accepted, o1);
    if Running(w1) {
      var w2 := CountAndCommit(w1, p, now, later, o2, o3);
      CountIsSound(w1, p, now, later, o2, o3);
      if p in w2.parts {
        SameTransactionIsSound(w2, SettlePosition(w2, p), p);
      }
    }
  }

  // ----- every step -----

  lemma AppendIsSound(w: World, p: Partition, r: Record, q: Partition)
    requires SoundAt(w, q)
    ensures SoundAt(Step(w, Append(p, r)), q)
  {
    var t := Step(w, Append(p, r));
    assert Log(w, q) <= Log(t, q);
    assert forall e: Entry :: e.part == q && Genuine(w, e) ==> Genuine(t, e);
  }

  lemma OthersMore(w: World, p: Partition, start: nat, end: nat)
    requires end <= |Log(w, p)|
    ensures Follows(w, p, Expected(w.process, Log(w, p), p, start, end), start, end)
  {
    ExpectedInOrder(w.process, Log(w, p), p, start, end);
  }

  lemma OthersAreSoundThere(w: World, p: Partition, first: nat, n: nat)
    requires SoundAt(w, p) && p !in w.brokers.owned && FirstOffset(w.brokers, p, first) + n <= |Log(w, p)|
    ensures SoundAt(CommitByOthers(w, p, first, n), p)
  {
    hide Share, Expected;
    var start := FirstOffset(w.brokers, p, first);
    var end := start + n;
    ExpectedExtends(w.process, Log(w, p), p, w.brokers.output, start, end, p);
    OthersMore(w, p, start, end);
    assert Below(w, p, start) && Below(w, p, end);
    MoreIsSound(w, CommitByOthers(w, p, first, n), p, Expected(w.process, Log(w, p), p, start, end), start, end);
  }

  lemma OthersAreSound(w: World, p: Partition, first: nat, n: nat, q: Partition)
    requires SoundAt(w, q) && p !in w.brokers.owned && FirstOffset(w.brokers, p, first) + n <= |Log(w, p)|
    ensures SoundAt(CommitByOthers(w, p, first, n), q)
  {
    hide Share, Expected;
    if q == p {
      OthersAreSoundThere(w, p, first, n);
    } else {
      var t := CommitByOthers(w, p, first, n);
      assert Log(t, q) == Log(w, q);
      var start := FirstOffset(w.brokers, p, first);
      ExpectedExtends(w.process, Log(w, p), p, w.brokers.output, start, start + n, q);
      assert forall m: nat :: Below(t, q, m) <==> Below(w, q, m);
    }
  }

  lemma QuietIsSound(w: World, e: Event, q: Partition)
    requires Shape(w) && Enabled(w, e) && SoundAt(w, q)
    requires e.FencedOff? || e.DeliveryFailure? || e.Assigned? || e.Revoked? || e.Crash? || e.Started?
    ensures SoundAt(Step(w, e), q)
  {
    var t := Step(w, e);
    UnchangedIsSound(w, t, q);
    if q in t.parts {
      if e.Assigned? {
        assert q in t.brokers.owned ==> Below(t, q, t.parts[q].origin);
      } else {
        SameTransactionIsSound(w, t, q);
      }
    }
  }

  lemma StepIsSound(w: World, e: Event)
    requires Shape(w) && Sound(w)
    ensures Sound(Step(w, e))
  {
    if Enabled(w, e) {
      forall q
        ensures SoundAt(Step(w, e), q)
      {
        assert SoundAt(w, q);
        match e
        case Append(p, r) => AppendIsSound(w, p, r, q);
        case OthersCommit(p, first, n) => OthersAreSound(w, p, first, n, q);
        case Message(p, now, later, reports, accepted, o1, o2, o3) =>
          PartShapeIsMid(w, p);
          if q == p {
            MessageIsSound(w, p, now, later, reports, accepted, o1, o2, o3);
          } else {
            MessageOnlyTouches(w, p, now, later, reports, accepted, o1, o2, o3);
            OthersStaySound(w, HandleMessage(w, p, now, later, reports, accepted, o1, o2, o3), p, q);
          }
        case _ => QuietIsSound(w, e, q);
      }
    }
  }

  // ----- every run -----

  lemma {:induction false} EveryRunIsSound(process: Transform, log: map<Partition, seq<Record>>, es: seq<Event>)
    ensures Sound(Run(Initial(process, log), es))
  {
    if es != [] {
      var front := es[..|es| - 1];
      EveryRunIsSound(process, log, front);
      EveryRunKeepsShape(process, log, front);
      StepIsSound(Run(Initial(process, log), front), es[|es| - 1]);
    }
  }

  /** In no run is the output of an input message committed twice. */
  lemma NoDuplicates(process: Transform, log: map<Partition, seq<Record>>, es: seq<Event>, i: nat, j: nat)
    requires var out := Run(Initial(process, log), es).brokers.output;
             i < |out| && j < |out| && out[i].part == out[j].part && out[i].offset == out[j].offset
    ensures i == j
  {
    var w := Run(Initial(process, log), es);
    EveryRunIsSound(process, log, es);
    assert SoundAt(w, w.brokers.output[i].part);
    if i < j {
      OrderedSharesHaveNoDuplicates(w.brokers.output, i, j);
    } else if j < i {
      OrderedSharesHaveNoDuplicates(w.brokers.output, j, i);
    }
  }
}
