/** Exactly-once processing per input partition with one producer each: isolation,
    the refinement over every run, and the exact condition under which it holds. */
module OlderBrokerProofs {
  import opened Decimal
  import opened MessageFunction
  import opened OutputStream
  import opened OlderBroker

  ghost predicate Running(w: World) {
    w.phase.Polling?
  }

  /** What is committed of a partition is the message function mapped over the input
      from where the group began with it to the committed offset. */
  ghost predicate Settled(w: World, p: Partition) {
    if p in w.brokers.committed then
      && p in w.brokers.base && w.brokers.base[p] <= w.brokers.committed[p] <= |Log(w, p)|
      && Share(w.brokers.output, p) == Expected(w.process, Log(w, p), p, w.brokers.base[p], w.brokers.committed[p])
    else Share(w.brokers.output, p) == []
  }

  /** What the open transaction of a partition holds is the message function mapped
      from the committed offset, or from where reading began, to the cursor. */
  ghost predicate Tracked(w: World, p: Partition)
    requires p in w.parts
  {
    var part := w.parts[p];
    && part.origin <= part.cursor <= |Log(w, p)|
    && part.producer.pending == Expected(w.process, Log(w, p), p, part.origin, part.cursor)
    && (p in w.brokers.committed ==> part.origin == w.brokers.committed[p])
  }

  /** The refinement for one partition. */
  ghost predicate Local(w: World, p: Partition) {
    Settled(w, p) && (p in w.parts && p in w.brokers.owned ==> Tracked(w, p))
  }

  /** The refinement. */
  ghost predicate ExactlyOnceState(w: World) {
    forall p :: Local(w, p)
  }

  /** What holds of every assigned partition whatever happens: its producer is inside
      a transaction that only has output of this partition, the position is where the
      consumer reads, and at most 100 messages were counted. */
  ghost predicate PartShape(w: World, p: Partition)
    requires p in w.parts
  {
    var part := w.parts[p];
    && part.producer.txn != Ready
    && (forall e :: e in part.producer.pending ==> e.part == p)
    && part.origin <= part.cursor <= |Log(w, p)|
    && (part.position == Some(part.cursor) || (part.position == None && part.producer.pending == [] && part.cursor == part.origin))
    && part.msgcnt <= 100
  }

  ghost predicate Shape(w: World) {
    && w.phase != Gone(true)
    && (forall p :: p in w.brokers.committed ==> w.brokers.committed[p] <= |Log(w, p)|)
    && w.brokers.base.Keys == w.brokers.committed.Keys
    && (forall p :: p in w.parts ==> PartShape(w, p))
    && (w.parts != map[] ==> w.active && Running(w))
  }

  // ----- isolation -----

  /** Nothing committed of partition q is different. */
  ghost predicate SameCommitted(w: World, t: World, q: Partition) {
    && (q in t.brokers.committed <==> q in w.brokers.committed)
    && (q in w.brokers.committed ==> t.brokers.committed[q] == w.brokers.committed[q])
    && (q in t.brokers.base <==> q in w.brokers.base)
    && (q in w.brokers.base ==> t.brokers.base[q] == w.brokers.base[q])
    && Share(t.brokers.output, q) == Share(w.brokers.output, q)
  }

  /** Nothing the process holds of partition q is different. */
  ghost predicate SamePart(w: World, t: World, q: Partition) {
    && (q in t.parts <==> q in w.parts)
    && (q in w.parts ==> t.parts[q] == w.parts[q])
  }

  /** A function that works on partition p alone: what is committed of every other
      partition is the same, and so is what is held of it unless the process ends. */
  ghost predicate OnlyTouches(w: World, t: World, p: Partition) {
    && t.process == w.process && t.brokers.log == w.brokers.log
    && (forall q :: q != p ==> SameCommitted(w, t, q))
    && (Running(t) ==>
          && t.active == w.active && t.brokers.owned == w.brokers.owned
          && p in t.parts
          && (forall q :: q != p ==> SamePart(w, t, q)))
    && (!Running(t) ==> t.parts == map[] && t.phase == Gone(false))
  }

  lemma OnlyTouchesTrans(w: World, u: World, t: World, p: Partition)
    requires OnlyTouches(w, u, p) && Running(u) && OnlyTouches(u, t, p)
    ensures OnlyTouches(w, t, p)
  {
    forall q | q != p
      ensures SameCommitted(w, t, q)
      ensures Running(t) ==> SamePart(w, t, q)
    {
      assert SameCommitted(w, u, q) && SameCommitted(u, t, q) && SamePart(w, u, q);
      if Running(t) { assert SamePart(u, t, q); }
    }
  }

  /** Replacing what is held of p touches nothing else. */
  lemma UpdateOnlyTouches(w: World, p: Partition, part: Part)
    requires Running(w) && p in w.parts
    ensures OnlyTouches(w, w.(parts := w.parts[p := part]), p)
  {
  }

  lemma LeaveOnlyTouches(w: World, p: Partition)
    requires Running(w) && p in w.parts
    ensures OnlyTouches(w, Leave(w, false), p)
  {
  }

  lemma RewindOnlyTouches(w: World, p: Partition, o: Calls)
    requires Running(w) && p in w.parts && w.parts[p].producer.txn != Ready
    ensures OnlyTouches(w, AbortAndRewind(w, p, o), p)
  {
  }

  lemma PublishOnlyTouches(w: World, p: Partition, sent: Option<nat>)
    requires Running(w) && p in w.parts && forall e :: e in w.parts[p].producer.pending ==> e.part == p
    ensures OnlyTouches(w, Publish(w, p, sent), p)
  {
    forall q | q != p
      ensures SameCommitted(w, Publish(w, p, sent), q)
    {
      ShareConcat(w.brokers.output, w.parts[p].producer.pending, q);
      ShareOfAbsent(w.parts[p].producer.pending, q);
    }
  }

  /** Committing, or failing to commit, one partition leaves every other alone. */
  lemma CommitOnlyTouches(w: World, p: Partition, o: Calls, o': Calls)
    requires Running(w) && p in w.parts && w.parts[p].producer.txn != Ready
    requires forall e :: e in w.parts[p].producer.pending ==> e.part == p
    ensures OnlyTouches(w, CommitAndStartNew(w, p, o, o'), p)
  {
    var t := CommitAndStartNew(w, p, o, o');
    if !o.position {
      LeaveOnlyTouches(w, p);
    } else if MustRollBack(w, p, o) {
      RewindOnlyTouches(w, p, o');
    } else if !Publishes(w, p, o) {
      LeaveOnlyTouches(w, p);
    } else {
      var w1 := Publish(w, p, w.parts[p].position);
      PublishOnlyTouches(w, p, w.parts[p].position);
      if Running(t) {
        UpdateOnlyTouches(w1, p, t.parts[p]);
      } else {
        LeaveOnlyTouches(w1, p);
      }
      OnlyTouchesTrans(w, w1, t, p);
    }
  }

  lemma ProcessOnlyTouches(w: World, p: Partition, offset: nat, r: Record, reports: seq<bool>, accepted: bool, o: Calls)
    requires Running(w) && p in w.parts && w.parts[p].producer.txn != Ready
    ensures OnlyTouches(w, ProcessMessage(w, p, offset, r, reports, accepted, o), p)
  {
    var part := w.parts[p];
    var pr := WaitForQueue(part.producer, reports);
    var w1 := w.(parts := w.parts[p := part.(producer := pr)]);
    UpdateOnlyTouches(w, p, part.(producer := pr));
    RewindOnlyTouches(w1, p, o);
    OnlyTouchesTrans(w, w1, AbortAndRewind(w1, p, o), p);
  }

  // ----- one partition -----

  lemma OthersStayRefined(w: World, t: World, p: Partition)
    requires OnlyTouches(w, t, p) && ExactlyOnceState(w)
    ensures ExactlyOnceState(t) <==> Local(t, p)
  {
    forall q | q != p
      ensures Local(t, q)
    {
      assert SameCommitted(w, t, q) && Local(w, q);
      assert Log(t, q) == Log(w, q);
      if Running(t) { assert SamePart(w, t, q); }
    }
  }

  /** Inside a turn: as `PartShape`, except that a requested seek may not have been
      carried out yet, so that the position is the one from before it. */
  ghost predicate MidShape(w: World, p: Partition) {
    && p in w.parts
    && var part := w.parts[p];
    && part.producer.txn != Ready
    && (forall e :: e in part.producer.pending ==> e.part == p)
    && part.origin <= part.cursor <= |Log(w, p)|
    && (part.position == Some(part.cursor) ||
        (part.producer.pending == [] && part.cursor == part.origin && (part.position.Some? ==> part.position.value <= |Log(w, p)|)))
    && CommittedShape(w, p)
  }

  /** What stays true of the committed offset of p when the process ends. */
  ghost predicate CommittedShape(w: World, p: Partition) {
    && (p in w.brokers.committed ==> w.brokers.committed[p] <= |Log(w, p)|)
    && (p in w.brokers.base <==> p in w.brokers.committed)
  }

  lemma LeaveKeepsCommitted(w: World, p: Partition)
    requires CommittedShape(w, p)
    ensures CommittedShape(Leave(w, false), p)
  {
  }

  lemma RewindKeepsMid(w: World, p: Partition, o: Calls)
    requires Running(w) && MidShape(w, p)
    ensures var t := AbortAndRewind(w, p, o);
            && (Running(t) ==> MidShape(t, p) && t.parts[p].producer == Fresh())
            && CommittedShape(t, p)
            && t.brokers.log == w.brokers.log && t.brokers.output == w.brokers.output && t.brokers.committed == w.brokers.committed && t.brokers.base == w.brokers.base
  {
  }

  /** After a roll-back and rewind the partition is in step with what is committed. */
  lemma RewindRefines(w: World, p: Partition, o: Calls)
    requires Running(w) && MidShape(w, p) && Settled(w, p)
    ensures Local(AbortAndRewind(w, p, o), p)
  {
    RewindKeepsMid(w, p, o);
  }

  lemma PublishKeepsMid(w: World, p: Partition)
    requires Running(w) && MidShape(w, p)
    ensures var t := Publish(w, p, w.parts[p].position); MidShape(t, p) && Running(t)
  {
  }

  lemma StartNextKeepsMid(w: World, p: Partition, o: Calls)
    requires Running(w) && MidShape(w, p)
    ensures var t := StartNext(w, p, o);
            && (Running(t) ==> MidShape(t, p))
            && CommittedShape(t, p)
            && t.brokers.output == w.brokers.output && t.brokers.committed == w.brokers.committed && t.brokers.base == w.brokers.base && t.brokers.log == w.brokers.log && t.process == w.process
  {
  }

  lemma CommitKeepsMid(w: World, p: Partition, o: Calls, o': Calls)
    requires Running(w) && MidShape(w, p)
    ensures var t := CommitAndStartNew(w, p, o, o'); (Running(t) ==> MidShape(t, p)) && CommittedShape(t, p)
  {
    if Publishes(w, p, o) {
      assert !MustRollBack(w, p, o);
      PublishKeepsMid(w, p);
      StartNextKeepsMid(Publish(w, p, w.parts[p].position), p, o);
    } else if o.position && MustRollBack(w, p, o) {
      RewindKeepsMid(w, p, o');
    } else {
      LeaveKeepsCommitted(w, p);
    }
  }

  /** The partition has been read past a message with an output, the transaction was
      rolled back, and the position is still the one from before the rewind. */
  ghost predicate Stale(w: World, p: Partition) {
    && p in w.parts
    && var part := w.parts[p];
    && part.position.Some? && part.position.value != part.cursor
    && part.cursor < part.position.value <= |Log(w, p)|
    && w.process(Log(w, p)[part.position.value - 1]).Some?
  }

  lemma PublishInStep(w: World, p: Partition)
    requires MidShape(w, p) && Settled(w, p) && Tracked(w, p)
    requires w.parts[p].position == Some(w.parts[p].cursor) || w.parts[p].position == None
    ensures Settled(Publish(w, p, w.parts[p].position), p)
  {
    var part := w.parts[p];
    var t := Publish(w, p, part.position);
    ShareConcat(w.brokers.output, part.producer.pending, p);
    ShareOfOwn(part.producer.pending, p);
    assert Log(t, p) == Log(w, p);
    if p in w.brokers.committed {
      ExpectedSplit(w.process, Log(w, p), p, w.brokers.base[p], w.brokers.committed[p], part.cursor);
    }
  }

  /** Committing with a stale position claims messages whose output was rolled back. */
  lemma PublishStale(w: World, p: Partition)
    requires MidShape(w, p) && Settled(w, p) && Tracked(w, p) && Stale(w, p)
    ensures !Settled(Publish(w, p, w.parts[p].position), p)
  {
    var part := w.parts[p];
    var x := part.position.value;
    var t := Publish(w, p, part.position);
    assert t.brokers.output == w.brokers.output + [];
    assert t.brokers.output == w.brokers.output;
    assert Log(t, p) == Log(w, p);
    var b := t.brokers.base[p];
    if p in w.brokers.committed {
      ExpectedSplit(w.process, Log(w, p), p, b, w.brokers.committed[p], x);
    }
    assert Expected(w.process, Log(w, p), p, part.cursor, x) != [];
  }

  /** Once committed, the partition is in step, if what was committed is right. */
  lemma StartNextRefines(w: World, p: Partition, o: Calls)
    requires Running(w) && MidShape(w, p)
    requires var part := w.parts[p];
             if part.position == Some(part.cursor) then p in w.brokers.committed && w.brokers.committed[p] == part.cursor
             else part.producer.pending == [] && (p in w.brokers.committed && part.position == None ==> part.origin == w.brokers.committed[p])
    ensures Local(StartNext(w, p, o), p) ==> Settled(w, p)
    ensures Settled(w, p) && (w.parts[p].position == Some(w.parts[p].cursor) || w.parts[p].position == None) ==> Local(StartNext(w, p, o), p)
  {
    var t := StartNext(w, p, o);
    assert Log(t, p) == Log(w, p);
    assert Settled(t, p) <==> Settled(w, p);
  }

  lemma PublishedRefines(w: World, p: Partition, o: Calls)
    requires Running(w) && MidShape(w, p) && Settled(w, p) && Tracked(w, p)
    requires w.parts[p].position == Some(w.parts[p].cursor) || w.parts[p].position == None || Stale(w, p)
    ensures Local(StartNext(Publish(w, p, w.parts[p].position), p, o), p) <==> !Stale(w, p)
  {
    PublishKeepsMid(w, p);
    StartNextRefines(Publish(w, p, w.parts[p].position), p, o);
    if Stale(w, p) {
      PublishStale(w, p);
    } else {
      PublishInStep(w, p);
    }
  }

  lemma LeaveRefines(w: World, p: Partition)
    requires Settled(w, p)
    ensures Local(Leave(w, false), p)
  {
  }

  /** Committing keeps the partition refined unless the position was stale. */
  lemma CommitRefines(w: World, p: Partition, o: Calls, o': Calls)
    requires Running(w) && MidShape(w, p) && Local(w, p)
    requires w.parts[p].position == Some(w.parts[p].cursor) || w.parts[p].position == None || Stale(w, p)
    ensures Local(CommitAndStartNew(w, p, o, o'), p) <==> !(Stale(w, p) && Publishes(w, p, o))
  {
    if Publishes(w, p, o) {
      assert !MustRollBack(w, p, o);
      PublishedRefines(w, p, o);
    } else if o.position && MustRollBack(w, p, o) {
      RewindRefines(w, p, o');
    } else {
      LeaveRefines(w, p);
    }
  }

  // ----- one turn -----

  /** The message has an output and the producer does not take it. */
  predicate Rejected(w: World, p: Partition, reports: seq<bool>, accepted: bool)
    requires p in w.parts && w.parts[p].cursor < |Log(w, p)|
  {
    && w.process(Log(w, p)[w.parts[p].cursor]).Some?
    && (!accepted || w.parts[p].producer.txn != InTxn || false in reports)
  }

  /** Abort, begin, fetching the committed offset and the seek all work. */
  predicate RewindWorks(o: Calls) {
    o.abort && o.begin && o.committed && o.seek
  }

  /** With this message more than 100 are counted, or the last commit is five seconds old. */
  predicate CommitDue(part: Part, now: int) {
    part.msgcnt >= 100 || part.lastCommit + 5 <= now
  }

  /** The calls of a commit that has an offset to send take effect on the brokers. */
  predicate CallsTakeEffect(o: Calls) {
    o.position && o.send == Succeeds && (o.commit == Succeeds || (o.commit == Fails && o.applied))
  }

  lemma PartShapeIsMid(w: World, p: Partition)
    requires Shape(w) && p in w.parts
    ensures MidShape(w, p)
  {
  }

  lemma TakeKeepsMid(w: World, p: Partition)
    requires Running(w) && MidShape(w, p) && w.parts[p].cursor < |Log(w, p)|
    ensures var t := Take(w, p); MidShape(t, p) && OnlyTouches(w, t, p) && Running(t)
  {
    UpdateOnlyTouches(w, p, Take(w, p).parts[p]);
  }

  /** What processing leaves when the producer takes the output or there is none. */
  lemma AcceptedTurn(w: World, p: Partition, reports: seq<bool>, accepted: bool, o: Calls)
    requires Running(w) && MidShape(w, p) && w.parts[p].cursor < |Log(w, p)| && !Rejected(w, p, reports, accepted)
    ensures var t := Processed(w, p, reports, accepted, o);
            var n := w.parts[p].cursor;
            && MidShape(t, p) && Running(t)
            && t == w.(parts := t.parts)
            && t.parts[p].cursor == n + 1 && t.parts[p].position == Some(n + 1) && t.parts[p].origin == w.parts[p].origin
            && t.parts[p].producer.txn == w.parts[p].producer.txn
            && t.parts[p].producer.pending == w.parts[p].producer.pending + Tagged(w.process, p, n, Log(w, p)[n])
            && t.parts[p].msgcnt == w.parts[p].msgcnt && t.parts[p].lastCommit == w.parts[p].lastCommit
  {
  }

  /** What processing leaves when the output is refused: a rewound partition, whose
      position may not show it yet. */
  lemma RejectedTurn(w: World, p: Partition, reports: seq<bool>, accepted: bool, o: Calls)
    requires Running(w) && MidShape(w, p) && w.parts[p].cursor < |Log(w, p)| && Rejected(w, p, reports, accepted)
    ensures var t := Processed(w, p, reports, accepted, o);
            && t.brokers.output == w.brokers.output && t.brokers.committed == w.brokers.committed && t.brokers.base == w.brokers.base && t.brokers.log == w.brokers.log && t.process == w.process
            && CommittedShape(t, p)
            && (Running(t) ==>
                  && MidShape(t, p) && t.brokers.owned == w.brokers.owned
                  && t.parts[p].producer == Fresh()
                  && t.parts[p].cursor == t.parts[p].origin == (if p in w.brokers.committed then w.brokers.committed[p] else 0)
                  && t.parts[p].position == (if o.served then None else Some(w.parts[p].cursor + 1))
                  && t.parts[p].msgcnt == w.parts[p].msgcnt && t.parts[p].lastCommit == w.parts[p].lastCommit)
            && (Running(t) <==> RewindWorks(o))
  {
    TakeKeepsMid(w, p);
    var part := Take(w, p).parts[p];
    var w1 := Take(w, p).(parts := w.parts[p := part.(producer := WaitForQueue(part.producer, reports))]);
    assert MidShape(w1, p);
    RewindKeepsMid(w1, p, o);
  }

  lemma ProcessedKeepsMid(w: World, p: Partition, reports: seq<bool>, accepted: bool, o: Calls)
    requires Running(w) && MidShape(w, p) && w.parts[p].cursor < |Log(w, p)|
    ensures var t := Processed(w, p, reports, accepted, o);
            OnlyTouches(w, t, p) && (Running(t) ==> MidShape(t, p)) && CommittedShape(t, p)
  {
    TakeKeepsMid(w, p);
    var w1 := Take(w, p);
    ProcessOnlyTouches(w1, p, w.parts[p].cursor, Log(w, p)[w.parts[p].cursor], reports, accepted, o);
    OnlyTouchesTrans(w, w1, Processed(w, p, reports, accepted, o), p);
    if Rejected(w, p, reports, accepted) {
      RejectedTurn(w, p, reports, accepted, o);
    } else {
      AcceptedTurn(w, p, reports, accepted, o);
    }
  }

  /** After processing, the partition is refined: the output is in the transaction, or
      all of it was rolled back and rewound. */
  lemma ProcessedRefines(w: World, p: Partition, reports: seq<bool>, accepted: bool, o: Calls)
    requires Running(w) && MidShape(w, p) && w.parts[p].cursor < |Log(w, p)| && Local(w, p)
    ensures Local(Processed(w, p, reports, accepted, o), p)
  {
    hide Processed, Share;
    var t := Processed(w, p, reports, accepted, o);
    ProcessedKeepsMid(w, p, reports, accepted, o);
    if Rejected(w, p, reports, accepted) {
      RejectedTurn(w, p, reports, accepted, o);
    } else {
      AcceptedTurn(w, p, reports, accepted, o);
    }
    assert Log(t, p) == Log(w, p);
  }

  lemma CountedIsTheSame(w: World, p: Partition)
    requires Running(w) && MidShape(w, p)
    ensures var t := Counted(w, p);
            && OnlyTouches(w, t, p) && Running(t) && MidShape(t, p)
            && (Local(t, p) <==> Local(w, p)) && (Stale(t, p) <==> Stale(w, p))
            && t.parts[p] == w.parts[p].(msgcnt := w.parts[p].msgcnt + 1)
            && forall o :: Publishes(t, p, o) <==> Publishes(w, p, o)
  {
    UpdateOnlyTouches(w, p, Counted(w, p).parts[p]);
    SamePartIsLocal(w, Counted(w, p), p);
    assert Log(Counted(w, p), p) == Log(w, p);
  }

  /** After counting, the partition has at most 100 messages on its count. */
  lemma CountKeepsMid(w: World, p: Partition, now: int, later: int, o: Calls, o': Calls)
    requires Running(w) && MidShape(w, p)
    ensures var t := CountAndCommit(w, p, now, later, o, o');
            OnlyTouches(w, t, p) && (Running(t) ==> MidShape(t, p) && t.parts[p].msgcnt <= 100) && CommittedShape(t, p)
  {
    CountedIsTheSame(w, p);
    if Due(w.parts[p], now) {
      var w1 := Counted(w, p);
      var w2 := CommitAndStartNew(w1, p, o, o');
      CommitKeepsMid(w1, p, o, o');
      CommitOnlyTouches(w1, p, o, o');
      OnlyTouchesTrans(w, w1, w2, p);
      if Running(w2) {
        UpdateOnlyTouches(w2, p, w2.parts[p].(msgcnt := 0, lastCommit := later));
        OnlyTouchesTrans(w, w2, CountAndCommit(w, p, now, later, o, o'), p);
      }
    }
  }

  lemma CountRefines(w: World, p: Partition, now: int, later: int, o: Calls, o': Calls)
    requires Running(w) && MidShape(w, p) && Local(w, p)
    requires w.parts[p].position == Some(w.parts[p].cursor) || w.parts[p].position == None || Stale(w, p)
    ensures Local(CountAndCommit(w, p, now, later, o, o'), p) <==> !(Stale(w, p) && Due(w.parts[p], now) && Publishes(w, p, o))
  {
    CountedIsTheSame(w, p);
    if Due(w.parts[p], now) {
      var w1 := Counted(w, p);
      var w2 := CommitAndStartNew(w1, p, o, o');
      CommitRefines(w1, p, o, o');
      CommitKeepsMid(w1, p, o, o');
      if Running(w2) {
        SamePartIsLocal(w2, CountAndCommit(w, p, now, later, o, o'), p);
      }
    }
  }

  /** The refinement looks at the cursor and the transaction of a partition only. */
  lemma SamePartIsLocal(w: World, t: World, p: Partition)
    requires t == w.(parts := t.parts) && p in w.parts && p in t.parts
    requires t.parts[p].producer == w.parts[p].producer && t.parts[p].cursor == w.parts[p].cursor && t.parts[p].origin == w.parts[p].origin
    ensures Local(t, p) <==> Local(w, p)
  {
    assert Log(t, p) == Log(w, p);
  }

  lemma FencedCommitEnds(w: World, p: Partition, o: Calls, o': Calls)
    requires Running(w) && MidShape(w, p) && p !in w.brokers.owned
    ensures CommitAndStartNew(w, p, o, o') == Leave(w, false)
  {
    assert !MustRollBack(w, p, o) && !Publishes(w, p, o);
  }

  /** A fenced producer publishes nothing, so what is committed stays right. */
  lemma FencedCountRefines(w: World, p: Partition, now: int, later: int, o: Calls, o': Calls)
    requires Running(w) && MidShape(w, p) && Settled(w, p) && p !in w.brokers.owned
    ensures Local(CountAndCommit(w, p, now, later, o, o'), p)
  {
    CountedIsTheSame(w, p);
    if Due(w.parts[p], now) {
      FencedCommitEnds(Counted(w, p), p, o, o');
      LeaveRefines(Counted(w, p), p);
    }
  }

  /** The turn is clean unless it commits, in the same turn, with the position from
      before a rewind that has not been carried out. */
  ghost predicate CleanTurn(w: World, p: Partition, now: int, reports: seq<bool>, accepted: bool, o1: Calls, o2: Calls)
    requires p in w.parts && w.parts[p].cursor < |Log(w, p)|
  {
    Rejected(w, p, reports, accepted) && RewindWorks(o1) && !o1.served && CommitDue(w.parts[p], now) && p in w.brokers.owned ==>
      !CallsTakeEffect(o2)
  }

  /** The same, told by the state in the middle of the turn. */
  lemma CleanTurnIff(w: World, p: Partition, now: int, reports: seq<bool>, accepted: bool, o1: Calls, o2: Calls)
    requires Running(w) && MidShape(w, p) && w.parts[p].cursor < |Log(w, p)| && Rejected(w, p, reports, accepted)
    ensures var w1 := Processed(w, p, reports, accepted, o1);
            CleanTurn(w, p, now, reports, accepted, o1, o2) <==>
            (!o1.served && Running(w1) && p in w1.parts && Due(w1.parts[p], now) ==> !Publishes(w1, p, o2))
  {
    RejectedTurn(w, p, reports, accepted, o1);
  }

  lemma RejectedIsStale(w: World, p: Partition, reports: seq<bool>, accepted: bool, o: Calls)
    requires Running(w) && MidShape(w, p) && w.parts[p].cursor < |Log(w, p)| && Rejected(w, p, reports, accepted)
    requires p in w.brokers.owned && Tracked(w, p) && Running(Processed(w, p, reports, accepted, o))
    ensures var t := Processed(w, p, reports, accepted, o); MidShape(t, p) && (Stale(t, p) <==> !o.served)
  {
    RejectedTurn(w, p, reports, accepted, o);
    var t := Processed(w, p, reports, accepted, o);
    assert Log(t, p) == Log(w, p);
  }

  /** One turn of the main loop, up to the carried-out seek. */
  lemma TurnRefines(w: World, p: Partition, now: int, later: int, reports: seq<bool>, accepted: bool, o1: Calls, o2: Calls, o3: Calls)
    requires Running(w) && MidShape(w, p) && w.parts[p].cursor < |Log(w, p)| && Local(w, p)
    requires Running(Processed(w, p, reports, accepted, o1))
    ensures var w1 := Processed(w, p, reports, accepted, o1);
            && p in w1.parts
            && (Local(CountAndCommit(w1, p, now, later, o2, o3), p) <==> CleanTurn(w, p, now, reports, accepted, o1, o2))
  {
    var w1 := Processed(w, p, reports, accepted, o1);
    ProcessedKeepsMid(w, p, reports, accepted, o1);
    ProcessedRefines(w, p, reports, accepted, o1);
    if p !in w.brokers.owned {
      assert p !in w1.brokers.owned;
      FencedCountRefines(w1, p, now, later, o2, o3);
    } else if Rejected(w, p, reports, accepted) {
      RejectedIsStale(w, p, reports, accepted, o1);
      RejectedTurn(w, p, reports, accepted, o1);
      CleanTurnIff(w, p, now, reports, accepted, o1, o2);
      CountRefines(w1, p, now, later, o2, o3);
    } else {
      AcceptedTurn(w, p, reports, accepted, o1);
      CountRefines(w1, p, now, later, o2, o3);
    }
  }

  lemma SettlePositionIsLocal(w: World, p: Partition)
    requires Running(w) && MidShape(w, p) && w.parts[p].msgcnt <= 100
    ensures var t := SettlePosition(w, p);
            OnlyTouches(w, t, p) && Running(t) && MidShape(t, p) && PartShape(t, p) && (Local(t, p) <==> Local(w, p))
  {
    var t := SettlePosition(w, p);
    UpdateOnlyTouches(w, p, t.parts[p]);
    SamePartIsLocal(w, t, p);
  }

  /** The whole turn keeps to its partition. */
  lemma MessageOnlyTouches(w: World, p: Partition, now: int, later: int, reports: seq<bool>, accepted: bool, o1: Calls, o2: Calls, o3: Calls)
    requires Running(w) && MidShape(w, p) && w.parts[p].cursor < |Log(w, p)|
    ensures var t := HandleMessage(w, p, now, later, reports, accepted, o1, o2, o3);
            OnlyTouches(w, t, p) && (Running(t) ==> PartShape(t, p)) && CommittedShape(t, p)
  {
    var w1 := Processed(w, p, reports, accepted, o1);
    ProcessedKeepsMid(w, p, reports, accepted, o1);
    if Running(w1) {
      var w2 := CountAndCommit(w1, p, now, later, o2, o3);
      CountKeepsMid(w1, p, now, later, o2, o3);
      OnlyTouchesTrans(w, w1, w2, p);
      if Running(w2) {
        SettlePositionIsLocal(w2, p);
        OnlyTouchesTrans(w, w2, SettlePosition(w2, p), p);
      }
    }
  }

  lemma SettledTurn(w: World, p: Partition, now: int, later: int, o: Calls, o': Calls)
    requires Running(w) && MidShape(w, p)
    ensures var w2 := CountAndCommit(w, p, now, later, o, o');
            Local(if p in w2.parts then SettlePosition(w2, p) else w2, p) <==> Local(w2, p)
  {
    CountKeepsMid(w, p, now, later, o, o');
    var w2 := CountAndCommit(w, p, now, later, o, o');
    if Running(w2) {
      SettlePositionIsLocal(w2, p);
    }
  }

  lemma MessageRefines(w: World, p: Partition, now: int, later: int, reports: seq<bool>, accepted: bool, o1: Calls, o2: Calls, o3: Calls)
    requires Running(w) && MidShape(w, p) && w.parts[p].cursor < |Log(w, p)| && Local(w, p)
    ensures Local(HandleMessage(w, p, now, later, reports, accepted, o1, o2, o3), p) <==> CleanTurn(w, p, now, reports, accepted, o1, o2)
  {
    var w1 := Processed(w, p, reports, accepted, o1);
    ProcessedKeepsMid(w, p, reports, accepted, o1);
    ProcessedRefines(w, p, reports, accepted, o1);
    if Running(w1) {
      TurnRefines(w, p, now, later, reports, accepted, o1, o2, o3);
      SettledTurn(w1, p, now, later, o2, o3);
    }
  }

  // ----- every step -----

  ghost predicate Clean(w: World, e: Event) {
    Enabled(w, e) && e.Message? ==> CleanTurn(w, e.p, e.now, e.reports, e.accepted, e.o1, e.o2)
  }

  lemma MessageKeepsShape(w: World, p: Partition, t: World)
    requires Shape(w) && Running(w) && p in w.parts
    requires OnlyTouches(w, t, p) && (Running(t) ==> PartShape(t, p)) && CommittedShape(t, p)
    ensures Shape(t)
  {
    forall q | q != p
      ensures q in t.brokers.committed ==> t.brokers.committed[q] <= |Log(t, q)|
      ensures q in t.brokers.base <==> q in t.brokers.committed
      ensures Running(t) && q in t.parts ==> PartShape(t, q)
    {
      assert SameCommitted(w, t, q);
      assert Log(t, q) == Log(w, q);
      if Running(t) && q in t.parts {
        assert SamePart(w, t, q);
        assert PartShape(w, q);
      }
    }
  }

  lemma AppendKeeps(w: World, p: Partition, r: Record)
    requires Shape(w)
    ensures var t := Step(w, Append(p, r)); Shape(t) && (ExactlyOnceState(w) ==> ExactlyOnceState(t))
  {
    var t := Step(w, Append(p, r));
    assert forall q {:trigger Log(t, q)} :: Log(w, q) <= Log(t, q);
    forall q | q in t.parts
      ensures PartShape(t, q)
    {
      assert PartShape(w, q);
    }
    if ExactlyOnceState(w) {
      forall q
        ensures Local(t, q)
      {
        assert Local(w, q);
        if q in w.brokers.committed {
          ExpectedOfLongerLog(w.process, Log(w, q), r, q, w.brokers.base[q], w.brokers.committed[q]);
        }
        if q in w.parts {
          assert PartShape(w, q);
          ExpectedOfLongerLog(w.process, Log(w, q), r, q, w.parts[q].origin, w.parts[q].cursor);
        }
      }
    }
  }

  lemma OthersSettle(w: World, p: Partition, first: nat, n: nat, q: Partition)
    requires FirstOffset(w.brokers, p, first) + n <= |Log(w, p)| && Settled(w, q) && (p in w.brokers.base <==> p in w.brokers.committed)
    ensures Settled(CommitByOthers(w, p, first, n), q)
  {
    hide Share;
    var start, log, t := FirstOffset(w.brokers, p, first), Log(w, p), CommitByOthers(w, p, first, n);
    assert Log(t, q) == Log(w, q);
    if q == p {
      ExtendsTo(w.process, log, p, w.brokers.output, t.brokers.base[p], start, start + n);
    } else {
      ExpectedExtends(w.process, log, p, w.brokers.output, start, start + n, q);
    }
  }

  lemma OthersKeep(w: World, p: Partition, first: nat, n: nat)
    requires Shape(w) && Enabled(w, OthersCommit(p, first, n))
    ensures var t := CommitByOthers(w, p, first, n); Shape(t) && (ExactlyOnceState(w) ==> ExactlyOnceState(t))
  {
    var t := CommitByOthers(w, p, first, n);
    assert forall q {:trigger Log(t, q)} :: Log(t, q) == Log(w, q);
    forall q | q in t.parts
      ensures PartShape(t, q)
    {
      assert PartShape(w, q);
    }
    if ExactlyOnceState(w) {
      forall q
        ensures Local(t, q)
      {
        assert Local(w, q);
        OthersSettle(w, p, first, n, q);
      }
    }
  }

  /** Events that leave the logs and what is committed alone. */
  lemma QuietKeeps(w: World, e: Event)
    requires Shape(w) && Enabled(w, e)
    requires e.FencedOff? || e.DeliveryFailure? || e.Assigned? || e.Revoked? || e.Crash? || e.Started?
    ensures var t := Step(w, e); Shape(t) && (ExactlyOnceState(w) ==> ExactlyOnceState(t))
  {
    var t := Step(w, e);
    assert forall q {:trigger Log(t, q)} :: Log(t, q) == Log(w, q);
    forall q | q in t.parts
      ensures PartShape(t, q)
    {
      if !e.Assigned? { assert PartShape(w, q); }
    }
    if ExactlyOnceState(w) {
      forall q
        ensures Local(t, q)
      {
        assert Local(w, q);
      }
    }
  }

  lemma StepKeepsShape(w: World, e: Event)
    requires Shape(w)
    ensures Shape(Step(w, e))
  {
    if Enabled(w, e) {
      match e
      case Append(p, r) => AppendKeeps(w, p, r);
      case OthersCommit(p, first, n) => OthersKeep(w, p, first, n);
      case Message(p, now, later, reports, accepted, o1, o2, o3) =>
        PartShapeIsMid(w, p);
        MessageOnlyTouches(w, p, now, later, reports, accepted, o1, o2, o3);
        MessageKeepsShape(w, p, HandleMessage(w, p, now, later, reports, accepted, o1, o2, o3));
      case _ => QuietKeeps(w, e);
    }
  }

  /** One step from a state where the refinement holds: it holds afterwards if and only
      if the step is clean. */
  lemma StepRefinesIffClean(w: World, e: Event)
    requires Shape(w) && ExactlyOnceState(w)
    ensures ExactlyOnceState(Step(w, e)) <==> Clean(w, e)
  {
    if Enabled(w, e) {
      match e
      case Append(p, r) => AppendKeeps(w, p, r);
      case OthersCommit(p, first, n) => OthersKeep(w, p, first, n);
      case Message(p, now, later, reports, accepted, o1, o2, o3) =>
        PartShapeIsMid(w, p);
        assert Local(w, p);
        MessageOnlyTouches(w, p, now, later, reports, accepted, o1, o2, o3);
        MessageRefines(w, p, now, later, reports, accepted, o1, o2, o3);
        OthersStayRefined(w, HandleMessage(w, p, now, later, reports, accepted, o1, o2, o3), p);
      case _ => QuietKeeps(w, e);
    }
  }

  // ----- every run -----

  lemma {:induction false} EveryRunKeepsShape(process: Transform, log: map<Partition, seq<Record>>, es: seq<Event>)
    ensures Shape(Run(Initial(process, log), es))
  {
    if es != [] {
      EveryRunKeepsShape(process, log, es[..|es| - 1]);
      StepKeepsShape(Run(Initial(process, log), es[..|es| - 1]), es[|es| - 1]);
    }
  }

  ghost predicate RefinesThroughout(w: World, es: seq<Event>) {
    ExactlyOnceState(Run(w, es)) && (es != [] ==> RefinesThroughout(w, es[..|es| - 1]))
  }

  ghost predicate CleanThroughout(w: World, es: seq<Event>) {
    es != [] ==> CleanThroughout(w, es[..|es| - 1]) && Clean(Run(w, es[..|es| - 1]), es[|es| - 1])
  }

  /** Exactly-once per partition over every run, if and only if no turn commits with a
      position from before a rewind that has not been carried out. */
  lemma {:induction false} ExactlyOnceIffClean(process: Transform, log: map<Partition, seq<Record>>, es: seq<Event>)
    ensures RefinesThroughout(Initial(process, log), es) <==> CleanThroughout(Initial(process, log), es)
  {
    var w0 := Initial(process, log);
    if es != [] {
      var front := es[..|es| - 1];
      ExactlyOnceIffClean(process, log, front);
      EveryRunKeepsShape(process, log, front);
      if RefinesThroughout(w0, front) {
        StepRefinesIffClean(Run(w0, front), es[|es| - 1]);
      }
    }
  }

  /** Every seek a rewind asks for is carried out before the position is asked for. */
  predicate SeeksServed(es: seq<Event>) {
    forall i :: 0 <= i < |es| && es[i].Message? ==> es[i].o1.served
  }

  /** Exactly-once per partition for every run whose seeks take effect in time, with any
      crashes, rebalances, fencing, aborts and commits by other members in it. */
  lemma {:induction false} ServedRunsAreExactlyOnce(process: Transform, log: map<Partition, seq<Record>>, es: seq<Event>)
    requires SeeksServed(es)
    ensures RefinesThroughout(Initial(process, log), es)
  {
    ServedRunsAreClean(Initial(process, log), es);
    ExactlyOnceIffClean(process, log, es);
  }

  lemma {:induction false} ServedRunsAreClean(w: World, es: seq<Event>)
    requires SeeksServed(es)
    ensures CleanThroughout(w, es)
  {
    if es != [] {
      var n := |es| - 1;
      assert es[n].Message? ==> es[n].o1.served;
      ServedRunsAreClean(w, es[..n]);
    }
  }

  // ----- an unclean run -----

  const ALL_WELL := Calls(true, Succeeds, Succeeds, false, true, true, true, true, true)

  const ONE_MESSAGE: map<Partition, seq<Record>> := map[0 := [Record("k", "1")]]

  /** A message is refused by the producer, the rewind is requested, and the commit that
      is due in the same turn still sees the position behind the message. */
  const STALE_RUN: seq<Event> := [
    Started,
    Assigned(map[0 := 0], 0, true),
    Message(0, 5, 5, [], false, ALL_WELL.(served := false), ALL_WELL, ALL_WELL)]

  lemma RunThree(w: World, a: Event, b: Event, c: Event)
    ensures Run(w, [a, b, c]) == Step(Step(Step(w, a), b), c)
  {
    assert [a, b, c][..2] == [a, b] && [a, b][..1] == [a] && [a][..0] == [];
    assert Run(w, [a]) == Step(w, a);
    assert Run(w, [a, b]) == Step(Run(w, [a]), b);
  }

  /** A commit with a position but nothing in the transaction. */
  lemma EmptyCommit(w: World)
    requires Running(w) && 0 in w.parts && 0 in w.brokers.owned && w.parts[0] == Part(Fresh(), 0, Some(1), 0, 0, 0)
    ensures var t := CountAndCommit(w, 0, 5, 5, ALL_WELL, ALL_WELL);
            t.brokers.committed == w.brokers.committed[0 := 1] && t.brokers.output == w.brokers.output && Running(t) && 0 in t.parts
  {
    assert Publishes(w, 0, ALL_WELL) && !MustRollBack(w, 0, ALL_WELL);
    assert w.brokers.output + [] == w.brokers.output;
  }

  lemma StaleTurn(w: World)
    requires Running(w) && MidShape(w, 0) && 0 in w.brokers.owned && 0 !in w.brokers.committed && w.parts[0] == Part(Fresh(), 0, None, 0, 0, 0)
    requires |Log(w, 0)| == 1 && w.process(Log(w, 0)[0]).Some?
    ensures var t := HandleMessage(w, 0, 5, 5, [], false, ALL_WELL.(served := false), ALL_WELL, ALL_WELL);
            t.brokers.committed == w.brokers.committed[0 := 1] && t.brokers.output == w.brokers.output
  {
    RejectedTurn(w, 0, [], false, ALL_WELL.(served := false));
    EmptyCommit(Processed(w, 0, [], false, ALL_WELL.(served := false)));
  }

  /** The refinement does not hold in every run: here the group's offset moves past a
      message whose output is not in the output topic. */
  lemma StaleRunSkipsAMessage()
    ensures var w := Run(Initial(Emit, ONE_MESSAGE), STALE_RUN);
            w.brokers.committed == map[0 := 1] && w.brokers.output == [] && Emit(ONE_MESSAGE[0][0]) == Some(Output("k", "1"))
  {
    hide HandleMessage, CommitByOthers, RevokeCallback;
    var w0 := Initial(Emit, ONE_MESSAGE);
    EmittedValueIsAFixpoint("k", 1);
    assert Numeral(1) == "1";
    RunThree(w0, STALE_RUN[0], STALE_RUN[1], STALE_RUN[2]);
    assert STALE_RUN == [STALE_RUN[0], STALE_RUN[1], STALE_RUN[2]];
    var w2 := Step(Step(w0, STALE_RUN[0]), STALE_RUN[1]);
    assert w2.parts == map[0 := Part(Fresh(), 0, None, 0, 0, 0)];
    StaleTurn(w2);
  }
}
