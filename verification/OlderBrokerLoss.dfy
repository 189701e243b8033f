/** What follows from a commit with a stale position in the one-producer-per-partition
    example: the message it passed is lost for good once the process leaves the partition,
    and committed offsets can go back. */
module OlderBrokerLoss {
  import opened MessageFunction
  import opened OutputStream
  import opened OlderBroker
  import opened OlderBrokerProofs
  import opened OlderBrokerSafety

  /** The group has moved past a message whose output is not committed. */
  ghost predicate Lost(w: World, p: Partition, offset: nat) {
    && p in w.brokers.committed && offset < w.brokers.committed[p] && offset < |Log(w, p)|
    && w.process(Log(w, p)[offset]).Some?
    && forall e :: e in Share(w.brokers.output, p) ==> e.offset != offset
  }

  /** Nor will this process read the message again. */
  ghost predicate Passed(part: Part, offset: nat) {
    part.origin > offset && (part.position.Some? ==> part.position.value > offset)
  }

  ghost predicate Abandoned(w: World, p: Partition, offset: nat) {
    Lost(w, p, offset) && (p in w.parts && p in w.brokers.owned ==> Passed(w.parts[p], offset))
  }

  // ----- abandoned messages stay lost: one partition -----

  lemma UnchangedIsLost(w: World, t: World, p: Partition, offset: nat)
    requires Unchanged(w, t) && Lost(w, p, offset)
    ensures Lost(t, p, offset)
  {
    hide Share;
    assert Log(t, p) == Log(w, p);
  }

  lemma RewindAbandons(w: World, p: Partition, o: Calls, offset: nat)
    requires Running(w) && MidShape(w, p) && Abandoned(w, p, offset)
    ensures Abandoned(AbortAndRewind(w, p, o), p, offset)
  {
    hide Share;
    RewindKeepsMid(w, p, o);
    UnchangedIsLost(w, AbortAndRewind(w, p, o), p, offset);
  }

  lemma ProcessedAbandons(w: World, p: Partition, reports: seq<bool>, accepted: bool, o: Calls, offset: nat)
    requires Running(w) && MidShape(w, p) && w.parts[p].cursor < |Log(w, p)| && Abandoned(w, p, offset)
    ensures Abandoned(Processed(w, p, reports, accepted, o), p, offset)
  {
    hide Share;
    if Rejected(w, p, reports, accepted) {
      RejectedTurn(w, p, reports, accepted, o);
    } else {
      AcceptedTurn(w, p, reports, accepted, o);
    }
    UnchangedIsLost(w, Processed(w, p, reports, accepted, o), p, offset);
  }

  /** What is published comes after the message. */
  lemma PublishAbandons(w: World, p: Partition, offset: nat)
    requires Running(w) && MidShape(w, p) && SoundAt(w, p) && Abandoned(w, p, offset) && p in w.brokers.owned
    ensures Lost(Publish(w, p, w.parts[p].position), p, offset)
  {
    hide Share;
    var t := Publish(w, p, w.parts[p].position);
    PublishedShare(w, p);
    assert Log(t, p) == Log(w, p);
  }

  lemma CommitAbandons(w: World, p: Partition, o: Calls, o': Calls, offset: nat)
    requires Running(w) && MidShape(w, p) && SoundAt(w, p) && Abandoned(w, p, offset)
    ensures Abandoned(CommitAndStartNew(w, p, o, o'), p, offset)
  {
    hide Share;
    if Publishes(w, p, o) {
      assert !MustRollBack(w, p, o);
      var u := Publish(w, p, w.parts[p].position);
      PublishAbandons(w, p, offset);
      UnchangedIsLost(u, StartNext(u, p, o), p, offset);
    } else if o.position && MustRollBack(w, p, o) {
      RewindAbandons(w, p, o', offset);
    } else {
      UnchangedIsLost(w, Leave(w, false), p, offset);
    }
  }

  /** The count and the served seek play no part. */
  lemma SamePassed(w: World, t: World, p: Partition, offset: nat)
    requires Abandoned(w, p, offset) && Unchanged(w, t) && t.brokers.owned <= w.brokers.owned && p in w.parts && p in t.parts
    requires t.parts[p].origin == w.parts[p].origin && (t.parts[p].position == w.parts[p].position || t.parts[p].position == None)
    ensures Abandoned(t, p, offset)
  {
    hide Share;
    UnchangedIsLost(w, t, p, offset);
  }

  lemma CountAbandons(w: World, p: Partition, now: int, later: int, o: Calls, o': Calls, offset: nat)
    requires Running(w) && MidShape(w, p) && SoundAt(w, p) && Abandoned(w, p, offset)
    ensures Abandoned(CountAndCommit(w, p, now, later, o, o'), p, offset)
  {
    hide Share, Expected;
    var w1 := Counted(w, p);
    CountedIsTheSame(w, p);
    SameTransactionIsSound(w, w1, p);
    SamePassed(w, w1, p, offset);
    if Due(w.parts[p], now) {
      var w2 := CommitAndStartNew(w1, p, o, o');
      CommitAbandons(w1, p, o, o', offset);
      if p in w2.parts {
        SamePassed(w2, ResetCount(w2, p, later), p, offset);
      }
    }
  }

  lemma MessageAbandons(w: World, p: Partition, now: int, later: int, reports: seq<bool>, accepted: bool, o1: Calls, o2: Calls, o3: Calls, offset: nat)
    requires Running(w) && MidShape(w, p) && w.parts[p].cursor < |Log(w, p)| && SoundAt(w, p) && Abandoned(w, p, offset)
    ensures Abandoned(HandleMessage(w, p, now, later, reports, accepted, o1, o2, o3), p, offset)
  {
    hide Share, Expected;
    var w1 := Processed(w, p, reports, accepted, o1);
    ProcessedKeepsMid(w, p, reports, accepted, o1);
    ProcessedAbandons(w, p, reports, accepted, o1, offset);
    if Running(w1) {
      ProcessedIsSound(w, p, reports, accepted, o1);
      var w2 := CountAndCommit(w1, p, now, later, o2, o3);
      CountAbandons(w1, p, now, later, o2, o3, offset);
      if p in w2.parts {
        SamePassed(w2, SettlePosition(w2, p), p, offset);
      }
    }
  }

  // ----- every step and every run -----

  lemma OthersAbandon(w: World, q: Partition, first: nat, n: nat, p: Partition, offset: nat)
    requires FirstOffset(w.brokers, q, first) + n <= |Log(w, q)| && q !in w.brokers.owned && Abandoned(w, p, offset)
    ensures Abandoned(CommitByOthers(w, q, first, n), p, offset)
  {
    hide Share, Expected;
    var start, t := FirstOffset(w.brokers, q, first), CommitByOthers(w, q, first, n);
    assert Log(t, p) == Log(w, p);
    ExpectedExtends(w.process, Log(w, q), q, w.brokers.output, start, start + n, p);
    ExpectedParts(w.process, Log(w, q), q, start, start + n);
  }

  lemma QuietAbandons(w: World, e: Event, p: Partition, offset: nat)
    requires Shape(w) && Enabled(w, e) && Abandoned(w, p, offset)
    requires e.Append? || e.FencedOff? || e.DeliveryFailure? || e.Assigned? || e.Revoked? || e.Crash? || e.Started?
    ensures Abandoned(Step(w, e), p, offset)
  {
    hide Share;
    assert Log(w, p) <= Log(Step(w, e), p);
  }

  lemma StepAbandons(w: World, e: Event, p: Partition, offset: nat)
    requires Shape(w) && Sound(w) && Abandoned(w, p, offset)
    ensures Abandoned(Step(w, e), p, offset)
  {
    hide Share, Expected;
    if Enabled(w, e) {
      match e
      case OthersCommit(q, first, n) => OthersAbandon(w, q, first, n, p, offset);
      case Message(q, now, later, reports, accepted, o1, o2, o3) =>
        PartShapeIsMid(w, q);
        if q == p {
          assert SoundAt(w, p);
          MessageAbandons(w, p, now, later, reports, accepted, o1, o2, o3, offset);
        } else {
          var t := HandleMessage(w, q, now, later, reports, accepted, o1, o2, o3);
          MessageOnlyTouches(w, q, now, later, reports, accepted, o1, o2, o3);
          TouchedElsewhere(w, t, q, p, offset);
        }
      case _ => QuietAbandons(w, e, p, offset);
    }
  }

  lemma TouchedElsewhere(w: World, t: World, q: Partition, p: Partition, offset: nat)
    requires OnlyTouches(w, t, q) && q != p && Abandoned(w, p, offset)
    ensures Abandoned(t, p, offset)
  {
    hide Share;
    assert SameCommitted(w, t, p);
    assert Log(t, p) == Log(w, p);
    if Running(t) { assert SamePart(w, t, p); }
  }

  /** An abandoned message stays lost in every continuation. */
  lemma {:induction false} AbandonedForGood(w: World, es: seq<Event>, p: Partition, offset: nat)
    requires Shape(w) && Sound(w) && Abandoned(w, p, offset)
    ensures var t := Run(w, es); Shape(t) && Sound(t) && Abandoned(t, p, offset)
  {
    hide Share, Expected;
    if es != [] {
      var front, e := es[..|es| - 1], es[|es| - 1];
      AbandonedForGood(w, front, p, offset);
      StepKeepsShape(Run(w, front), e);
      StepIsSound(Run(w, front), e);
      StepAbandons(Run(w, front), e, p, offset);
    }
  }

  // ----- after an unclean turn -----

  /** A commit with a stale position passes the message that was refused. */
  lemma StaleCommitLoses(w: World, p: Partition, offset: nat)
    requires Running(w) && MidShape(w, p) && w.parts[p].position == Some(offset + 1) && w.parts[p].producer.pending == []
    requires offset < |Log(w, p)| && w.process(Log(w, p)[offset]).Some? && Below(w, p, offset)
    ensures Lost(Publish(w, p, w.parts[p].position), p, offset)
  {
    hide Share;
    PublishedShare(w, p);
    assert Log(Publish(w, p, w.parts[p].position), p) == Log(w, p);
  }

  lemma CommitStaleLoses(w: World, p: Partition, now: int, later: int, o: Calls, o': Calls, offset: nat)
    requires Running(w) && MidShape(w, p) && w.parts[p].position == Some(offset + 1) && w.parts[p].producer.pending == []
    requires offset < |Log(w, p)| && w.process(Log(w, p)[offset]).Some? && Below(w, p, offset)
    requires Due(w.parts[p], now) && Publishes(w, p, o)
    ensures var t := FinishTurn(w, p, now, later, o, o');
            && Lost(t, p, offset) && t.brokers.committed[p] == offset + 1
            && (p in t.parts ==> t.parts[p].cursor == w.parts[p].cursor && Running(t))
  {
    hide Share;
    var w1 := Counted(w, p);
    CountedIsTheSame(w, p);
    assert Publishes(w1, p, o) && !MustRollBack(w1, p, o);
    assert Below(w1, p, offset) && Log(w1, p) == Log(w, p);
    var u := Publish(w1, p, w1.parts[p].position);
    StaleCommitLoses(w1, p, offset);
    UnchangedIsLost(u, FinishTurn(w, p, now, later, o, o'), p, offset);
  }

  /** Every unclean turn commits an offset past the message it refused, whose output is
      not committed; the partition, if still held, is back where the rewind put it. */
  lemma UncleanTurnLoses(w: World, p: Partition, now: int, later: int, reports: seq<bool>, accepted: bool, o1: Calls, o2: Calls, o3: Calls)
    requires Shape(w) && Running(w) && p in w.parts && SoundAt(w, p) && w.parts[p].cursor < |Log(w, p)|
    requires !CleanTurn(w, p, now, reports, accepted, o1, o2)
    ensures var t := HandleMessage(w, p, now, later, reports, accepted, o1, o2, o3);
            var offset := w.parts[p].cursor;
            && Lost(t, p, offset) && t.brokers.committed[p] == offset + 1
            && (p in t.parts ==> t.parts[p].cursor == (if p in w.brokers.committed then w.brokers.committed[p] else 0) && Running(t))
  {
    hide Share, Expected;
    var offset := w.parts[p].cursor;
    var w1 := Processed(w, p, reports, accepted, o1);
    PartShapeIsMid(w, p);
    RejectedTurn(w, p, reports, accepted, o1);
    CleanTurnIff(w, p, now, reports, accepted, o1, o2);
    assert p in w.brokers.owned;
    assert Log(w1, p) == Log(w, p);
    assert Below(w1, p, offset);
    CommitStaleLoses(w1, p, now, later, o2, o3, offset);
  }

  /** Giving the partition up, being fenced off it, or ending abandons what is lost. */
  predicate Leaves(e: Event, p: Partition) {
    e.Crash? || e.Revoked? || (e.FencedOff? && e.p == p)
  }

  lemma LeavingAbandons(w: World, e: Event, p: Partition, offset: nat)
    requires Lost(w, p, offset) && Enabled(w, e) && Leaves(e, p)
    ensures Abandoned(Step(w, e), p, offset)
  {
    hide Share;
    UnchangedIsLost(w, Step(w, e), p, offset);
  }

  /** An unclean turn, then a crash, a revoke or a fencing, loses the message refused in
      that turn: its output is not there in any continuation. */
  lemma UncleanTurnThenLeavingLosesForGood(w: World, e: Event, leave: Event, es: seq<Event>)
    requires Shape(w) && Sound(w) && Enabled(w, e) && !Clean(w, e) && Leaves(leave, e.p)
    ensures Lost(Run(Step(Step(w, e), leave), es), e.p, w.parts[e.p].cursor)
  {
    hide Share, Expected, HandleMessage;
    var t := Step(w, e);
    assert SoundAt(w, e.p);
    UncleanTurnLoses(w, e.p, e.now, e.later, e.reports, e.accepted, e.o1, e.o2, e.o3);
    StepKeepsShape(w, e);
    StepIsSound(w, e);
    StepKeepsShape(t, leave);
    StepIsSound(t, leave);
    if Enabled(t, leave) {
      LeavingAbandons(t, leave, e.p, w.parts[e.p].cursor);
    }
    AbandonedForGood(Step(t, leave), es, e.p, w.parts[e.p].cursor);
  }

  // ----- committed offsets -----

  ghost predicate GoesBack(w: World, t: World, p: Partition) {
    p in w.brokers.committed && (p !in t.brokers.committed || t.brokers.committed[p] < w.brokers.committed[p])
  }

  /** The turn commits an offset: a commit is due and its calls take effect, and either the
      message was not refused and the transaction is good, or it was, and the rewind is asked
      for but not carried out. */
  predicate SendsOffset(w: World, e: Event)
    requires e.Message? && Enabled(w, e)
  {
    && CommitDue(w.parts[e.p], e.now) && e.p in w.brokers.owned && CallsTakeEffect(e.o2)
    && (if Rejected(w, e.p, e.reports, e.accepted) then RewindWorks(e.o1) && !e.o1.served
        else w.parts[e.p].producer.txn == InTxn)
  }

  /** What a commit does to the committed offset. */
  lemma CommittedOffset(w: World, p: Partition, now: int, later: int, o: Calls, o': Calls)
    requires Running(w) && MidShape(w, p)
    ensures var t := FinishTurn(w, p, now, later, o, o');
            t.brokers.committed ==
            if Due(w.parts[p], now) && Publishes(w, p, o) && w.parts[p].position.Some?
            then w.brokers.committed[p := w.parts[p].position.value] else w.brokers.committed
  {
    hide Share, Expected, CommitAndStartNew, Publishes;
    CountedIsTheSame(w, p);
    if Due(w.parts[p], now) {
      CommittedByCommit(Counted(w, p), p, o, o');
    }
  }

  lemma CommittedByCommit(w: World, p: Partition, o: Calls, o': Calls)
    requires p in w.parts
    ensures CommitAndStartNew(w, p, o, o').brokers.committed ==
            if Publishes(w, p, o) && w.parts[p].position.Some?
            then w.brokers.committed[p := w.parts[p].position.value] else w.brokers.committed
  {
    if Publishes(w, p, o) {
      assert !MustRollBack(w, p, o);
    }
  }

  /** The same, told by the state in the middle of the turn. */
  lemma SendsOffsetIff(w: World, e: Event)
    requires Shape(w) && e.Message? && Enabled(w, e)
    ensures var w1 := Processed(w, e.p, e.reports, e.accepted, e.o1);
            SendsOffset(w, e) <==>
            && (Rejected(w, e.p, e.reports, e.accepted) ==> !e.o1.served)
            && e.p in w1.parts && Due(w1.parts[e.p], e.now) && Publishes(w1, e.p, e.o2)
  {
    hide Share, Expected, Processed;
    PartShapeIsMid(w, e.p);
    ProcessedKeepsMid(w, e.p, e.reports, e.accepted, e.o1);
    if Rejected(w, e.p, e.reports, e.accepted) {
      RejectedTurn(w, e.p, e.reports, e.accepted, e.o1);
    } else {
      AcceptedTurn(w, e.p, e.reports, e.accepted, e.o1);
    }
  }

  /** After a turn the committed offset of its partition is one past the message, if the
      turn sends it, and what it was otherwise. */
  lemma TurnOffset(w: World, e: Event)
    requires Shape(w) && e.Message? && Enabled(w, e)
    ensures Step(w, e).brokers.committed ==
            if SendsOffset(w, e) then w.brokers.committed[e.p := w.parts[e.p].cursor + 1] else w.brokers.committed
  {
    hide Share, Expected, CountAndCommit, Publishes, SendsOffset;
    SendsOffsetIff(w, e);
    var p := e.p;
    var w1 := Processed(w, p, e.reports, e.accepted, e.o1);
    PartShapeIsMid(w, p);
    if Rejected(w, p, e.reports, e.accepted) {
      RejectedTurn(w, p, e.reports, e.accepted, e.o1);
    } else {
      AcceptedTurn(w, p, e.reports, e.accepted, e.o1);
    }
    ProcessedKeepsMid(w, p, e.reports, e.accepted, e.o1);
    if Running(w1) {
      CommittedOffset(w1, p, e.now, e.later, e.o2, e.o3);
    }
  }

  /** A committed offset goes back in a step exactly if the step is a turn that sends the
      offset of a message further behind than the last one before the committed offset. */
  lemma StepGoesBackIff(w: World, e: Event, p: Partition)
    requires Shape(w)
    ensures GoesBack(w, Step(w, e), p) <==>
            && e.Message? && Enabled(w, e) && e.p == p && SendsOffset(w, e)
            && p in w.brokers.committed && w.parts[p].cursor + 1 < w.brokers.committed[p]
  {
    hide Share, Expected;
    if Enabled(w, e) {
      if e.Message? {
        TurnOffset(w, e);
      }
    }
  }

  /** An unclean turn that goes on puts the committed offset ahead of the partition, by
      more than one message if it had read more than one since the last commit: the next
      commit then takes it back. */
  lemma UncleanTurnPutsAhead(w: World, e: Event)
    requires Shape(w) && Sound(w) && Enabled(w, e) && !Clean(w, e) && Running(Step(w, e))
    requires (if e.p in w.brokers.committed then w.brokers.committed[e.p] else 0) < w.parts[e.p].cursor
    ensures var t := Step(w, e);
            && e.p in t.parts && e.p in t.brokers.committed && t.parts[e.p].cursor + 1 < t.brokers.committed[e.p]
            && forall next: Event :: next.Message? && next.p == e.p && Enabled(t, next) && SendsOffset(t, next) ==> GoesBack(t, Step(t, next), e.p)
  {
    hide Share, Expected;
    var t := Step(w, e);
    assert SoundAt(w, e.p);
    PartShapeIsMid(w, e.p);
    UncleanTurnLoses(w, e.p, e.now, e.later, e.reports, e.accepted, e.o1, e.o2, e.o3);
    MessageOnlyTouches(w, e.p, e.now, e.later, e.reports, e.accepted, e.o1, e.o2, e.o3);
    StepKeepsShape(w, e);
    forall next: Event | next.Message? && next.p == e.p && Enabled(t, next) && SendsOffset(t, next)
      ensures GoesBack(t, Step(t, next), e.p)
    {
      StepGoesBackIff(t, next, e.p);
    }
  }

  /** In a state that refines the specification no step takes a committed offset back. */
  lemma RefinedStepsNeverGoBack(w: World, e: Event, p: Partition)
    requires Shape(w) && ExactlyOnceState(w)
    ensures !GoesBack(w, Step(w, e), p)
  {
    hide Share, Expected;
    StepGoesBackIff(w, e, p);
    assert Local(w, p);
  }

  /** In a clean run no committed offset ever goes back, from any moment to a later one. */
  lemma {:induction false} CleanRunsNeverGoBack(process: Transform, log: map<Partition, seq<Record>>, es: seq<Event>, k: nat, p: Partition)
    requires k <= |es| && CleanThroughout(Initial(process, log), es)
    ensures !GoesBack(Run(Initial(process, log), es[..k]), Run(Initial(process, log), es), p)
  {
    hide Share, Expected;
    var w0 := Initial(process, log);
    if k == |es| {
      assert es[..k] == es;
    } else {
      var front, e := es[..|es| - 1], es[|es| - 1];
      CleanRunsNeverGoBack(process, log, front, k, p);
      assert front[..k] == es[..k];
      ExactlyOnceIffClean(process, log, front);
      EveryRunKeepsShape(process, log, front);
      RefinedStepsNeverGoBack(Run(w0, front), e, p);
    }
  }
}
