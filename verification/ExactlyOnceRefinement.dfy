/** Exactly-once processing: the refinement over every run of the step system, and
    the exact condition under which it holds. */
module ExactlyOnceRefinement {
  import opened MessageFunction
  import opened OutputStream
  import opened ExactlyOnce
  import opened ExactlyOnceShape
  import opened ExactlyOnceGuards

  /** What is committed of one partition is the message function mapped over the
      part of its input before the committed offset. */
  ghost predicate Settled(s: State, p: Partition) {
    var c := s.cluster;
    Start(c, p) <= |Log(c, p)| && Share(c.output, p) == Expected(s.process, Log(c, p), p, 0, Start(c, p))
  }

  /** What the open transaction holds of one partition is the message function
      mapped from the committed offset to where the consumer reads next. */
  ghost predicate Tracked(s: State, p: Partition)
    requires p in s.consumer.cursor
  {
    var n := s.consumer.cursor[p];
    n <= |Log(s.cluster, p)| && Share(s.cluster.pending, p) == Expected(s.process, Log(s.cluster, p), p, Start(s.cluster, p), n)
  }

  /** The refinement. */
  ghost predicate ExactlyOnceState(s: State) {
    && (forall p :: Settled(s, p))
    && (forall p :: p in Held(s) ==> Tracked(s, p))
  }

  // ----- the condition -----

  /** The open transaction holds nothing of these partitions. */
  ghost predicate Untouched(s: State, ps: set<Partition>) {
    forall p :: p in ps ==> Share(s.cluster.pending, p) == []
  }

  predicate CommitDue(s: State, now: int) {
    s.msgcnt > 0 && (s.msgcnt > 100 || s.lastCommit + 5 <= now)
  }

  /** The message has an output and the producer does not take it. */
  predicate Rejected(s: State, p: Partition, reports: seq<bool>, accepted: bool)
    requires p in s.consumer.cursor && s.consumer.cursor[p] < |Log(s.cluster, p)|
  {
    && s.process(Log(s.cluster, p)[s.consumer.cursor[p]]).Some?
    && (!accepted || s.cluster.txn != InTxn || false in reports)
  }

  /** The step does not roll back outputs of a partition that it neither rewinds nor
      gives back. The guards are the branches that abort without rewinding: a revoke
      whose commit returned 0 or whose assignment was lost, and a rewind that could
      not query the assignment; a process that ends in the step does no harm. */
  ghost predicate Clean(s: State, e: Event) {
    Enabled(s, e) ==>
    match e
    case Turn(now, _, o) =>
      CommitDue(s, now) && CommitAnswer(s, o) == RolledBack && !o.rewindAssignment && o.begin == Succeeds ==>
        Untouched(s, Held(s))
    case Revoked(ps, lost, ok, o) =>
      RevokeRollsBack(s, lost, ok, o) ==> Untouched(s, Held(s) - ps)
    case Message(p, reports, accepted, o) =>
      Rejected(s, p, reports, accepted) && !o.rewindAssignment && RewindWorks(o) ==>
        p !in Held(s) && Untouched(s, Held(s))
    case _ => true
  }

  // ----- one step -----

  lemma SameSettled(s: State, t: State)
    requires t.cluster.log == s.cluster.log && t.process == s.process && Unpublished(s, t)
    requires forall p :: Settled(s, p)
    ensures forall p :: Settled(t, p)
  {
    SameLogs(s, t);
    forall p
      ensures Settled(t, p)
    {
      assert Settled(s, p);
    }
  }

  /** A commit moves the outputs of the open transaction into the committed output
      exactly as it moves the committed offsets. */
  lemma PublishSettles(s: State, t: State)
    requires Bookkeeping(s) && Running(s) && ExactlyOnceState(s)
    requires t.cluster.log == s.cluster.log && t.process == s.process && Published(s, t)
    ensures forall p :: Settled(t, p)
  {
    PublishedOffsets(s, t);
    SameLogs(s, t);
    forall p
      ensures Settled(t, p)
    {
      assert Settled(s, p);
      ShareConcat(s.cluster.output, s.cluster.pending, p);
      if p in s.consumer.position {
        assert p in Held(s);
        assert Tracked(s, p);
        ExpectedSplit(s.process, Log(s.cluster, p), p, 0, Start(s.cluster, p), s.consumer.cursor[p]);
      } else if p !in Assignment(s) {
        ShareOfAbsent(s.cluster.pending, p);
      }
    }
  }

  /** After a roll-back a partition is tracked exactly when it has no output between
      its committed offset and where it is read next. */
  lemma TrackedAfterRollback(t: State, p: Partition)
    requires p in Assignment(t) && t.cluster.pending == [] && t.consumer.cursor[p] <= |Log(t.cluster, p)|
    ensures Tracked(t, p) <==> Expected(t.process, Log(t.cluster, p), p, Start(t.cluster, p), t.consumer.cursor[p]) == []
  {
  }

  /** A step that ends in a new transaction, from a state where the refinement holds:
      it goes on holding exactly when the partitions still held lost no output. */
  lemma FreshRefines(s: State, t: State, rewound: bool)
    requires Bookkeeping(s) && Running(s) && ExactlyOnceState(s)
    requires SameApplication(s, t) && Running(t) && FreshTransaction(t)
    requires (Published(s, t) && t.consumer == s.consumer) || (Unpublished(s, t) && Rewound(s, t, rewound))
    ensures forall p :: Settled(t, p)
    ensures forall p :: p in Held(s) ==>
              (p in Held(t) && (Tracked(t, p) <==> Published(s, t) || rewound || Share(s.cluster.pending, p) == []))
    ensures Held(t) == Held(s)
  {
    SameLogs(s, t);
    ShapeOfFresh(s, t, rewound);
    if Published(s, t) && t.consumer == s.consumer {
      PublishSettles(s, t);
      PublishedOffsets(s, t);
    } else {
      SameSettled(s, t);
    }
    assert Assignment(t) == Assignment(s);
    forall p | p in Held(s)
      ensures Tracked(t, p) <==> Published(s, t) || rewound || Share(s.cluster.pending, p) == []
    {
      assert Tracked(s, p);
      TrackedAfterRollback(t, p);
    }
  }

  lemma ExitRefines(s: State, t: State)
    requires Bookkeeping(s) && Running(s) && ExactlyOnceState(s)
    requires SameApplication(s, t) && !Running(t) && (Unpublished(s, t) || Published(s, t))
    ensures ExactlyOnceState(t)
  {
    if Published(s, t) {
      PublishSettles(s, t);
    } else {
      SameSettled(s, t);
    }
  }

  lemma TurnRefines(s: State, now: int, later: int, o: Oracle)
    requires Shape(s) && s.phase.AtTop? && ExactlyOnceState(s)
    ensures ExactlyOnceState(LoopTop(s, now, later, o)) <==> Clean(s, Turn(now, later, o))
  {
    var t := LoopTop(s, now, later, o);
    if CommitDue(s, now) {
      CommitAndStartNewEffect(s, o);
      TurnAnswers(s, o);
      CommitAnswers(s, o);
      var s1 := CommitAndStartNew(s, o);
      if Running(s1) {
        FreshRefines(s, s1, o.rewindAssignment);
        SamePartitions(s1, t);
      } else {
        ExitRefines(s, s1);
      }
    } else {
      SamePartitions(s, t);
    }
  }

  /** The refinement only looks at the brokers and the consumer. */
  lemma SamePartitions(s: State, t: State)
    requires t.process == s.process && t.consumer == s.consumer
    requires t.cluster.log == s.cluster.log && t.cluster.pending == s.cluster.pending && t.cluster.owned == s.cluster.owned
    requires Unpublished(s, t)
    ensures ExactlyOnceState(t) <==> ExactlyOnceState(s)
  {
    SameLogs(s, t);
    assert forall p :: Settled(t, p) <==> Settled(s, p);
    assert forall p :: p in Held(s) ==> (Tracked(t, p) <==> Tracked(s, p));
  }

  lemma UnassignRefines(s: State, ps: set<Partition>)
    requires Running(s) && forall p :: Settled(s, p)
    ensures ExactlyOnceState(Unassign(s, ps)) <==> forall p :: p in Held(s) - ps ==> Tracked(s, p)
  {
    var t := Unassign(s, ps);
    SameSettled(s, t);
    SameLogs(s, t);
    assert Held(t) == Held(s) - ps;
    assert forall p :: p in Held(t) ==> (Tracked(t, p) <==> Tracked(s, p));
  }

  lemma RevokeRefines(s: State, ps: set<Partition>, lost: bool, ok: bool, o: Oracle)
    requires Shape(s) && Running(s) && ExactlyOnceState(s)
    ensures var t := RevokeCallback(s, ps, lost, ok, o);
            ExactlyOnceState(t) <==> (RevokeRollsBack(s, lost, ok, o) ==> Untouched(s, Held(s) - ps))
  {
    RevokeAnswers(s, ps, lost, ok, o);
    EndTransactionEffect(s, lost, o);
    var s1 := EndTransaction(s, lost, o);
    if Running(s1) {
      FreshRefines(s, s1, false);
      if ok {
        UnassignRefines(s1, ps);
      } else {
        SameSettled(s1, Exit(s1, false));
      }
    } else {
      ExitRefines(s, s1);
    }
  }

  lemma AssignRefines(s: State, ps: set<Partition>, ok: bool)
    requires Shape(s) && s.phase.InPoll? && ps !! Assignment(s) && ExactlyOnceState(s)
    ensures ExactlyOnceState(AssignCallback(s, ps, ok))
  {
    var t := AssignCallback(s, ps, ok);
    SameSettled(s, t);
    SameLogs(s, t);
    if ok {
      forall p | p in Held(t)
        ensures Tracked(t, p)
      {
        if p in ps {
          ShareOfAbsent(s.cluster.pending, p);
        } else {
          assert Tracked(s, p);
        }
      }
    }
  }

  /** What the stretch from the committed offset to the cursor gives grows by the
      output of the message read. */
  lemma ExpectedAfterTake(s: State, p: Partition)
    requires Bookkeeping(s) && p in Held(s) && s.consumer.cursor[p] < |Log(s.cluster, p)|
    ensures var n := s.consumer.cursor[p];
            Expected(s.process, Log(s.cluster, p), p, Start(s.cluster, p), n + 1)
            == Expected(s.process, Log(s.cluster, p), p, Start(s.cluster, p), n) + Tagged(s.process, p, n, Log(s.cluster, p)[n])
  {
  }

  /** The message was taken and what it gives, if anything, is in the transaction. */
  ghost predicate ProducedTake(s: State, p: Partition, t: State) {
    && p in s.consumer.cursor && s.consumer.cursor[p] < |Log(s.cluster, p)|
    && (var n := s.consumer.cursor[p];
        && t.consumer.cursor == s.consumer.cursor[p := n + 1]
        && t.cluster.pending == s.cluster.pending + Tagged(s.process, p, n, Log(s.cluster, p)[n]))
    && t.cluster.log == s.cluster.log && t.process == s.process && Unpublished(s, t) && t.cluster.owned == s.cluster.owned
  }

  lemma ProducedTracked(s: State, p: Partition, t: State, q: Partition)
    requires Bookkeeping(s) && ProducedTake(s, p, t) && q in Held(s) && Tracked(s, q)
    ensures Tracked(t, q)
  {
    if q == p {
      ProducedHere(s, p, t);
    } else {
      ProducedElsewhere(s, p, t, q);
    }
  }

  /** The partition of the message has one more read and its output pending. */
  lemma ProducedHere(s: State, p: Partition, t: State)
    requires Bookkeeping(s) && ProducedTake(s, p, t) && p in Held(s) && Tracked(s, p)
    ensures Tracked(t, p)
  {
    hide Share, Expected;
    var n := s.consumer.cursor[p];
    assert Log(t.cluster, p) == Log(s.cluster, p) && Start(t.cluster, p) == Start(s.cluster, p);
    ShareAfterProduce(s.cluster.pending, Tagged(s.process, p, n, Log(s.cluster, p)[n]), p, p);
    ExpectedAfterTake(s, p);
  }

  /** Other partitions are as they were. */
  lemma ProducedElsewhere(s: State, p: Partition, t: State, q: Partition)
    requires Bookkeeping(s) && ProducedTake(s, p, t) && q in Held(s) && Tracked(s, q) && q != p
    ensures Tracked(t, q)
  {
    hide Share, Expected;
    var n := s.consumer.cursor[p];
    assert Log(t.cluster, q) == Log(s.cluster, q) && Start(t.cluster, q) == Start(s.cluster, q);
    ShareAfterProduce(s.cluster.pending, Tagged(s.process, p, n, Log(s.cluster, p)[n]), p, q);
  }

  lemma ProducedRefines(s: State, p: Partition, t: State)
    requires Shape(s) && Running(s) && ExactlyOnceState(s) && ProducedTake(s, p, t)
    ensures ExactlyOnceState(t)
  {
    SameSettled(s, t);
    assert Assignment(t) == Assignment(s);
    forall q | q in Held(t)
      ensures Tracked(t, q)
    {
      ProducedTracked(s, p, t, q);
    }
  }

  /** The message was taken, its output refused and the transaction rolled back. */
  ghost predicate RolledBackTake(s: State, p: Partition, t: State, rewound: bool) {
    && p in s.consumer.cursor && s.consumer.cursor[p] < |Log(s.cluster, p)|
    && s.process(Log(s.cluster, p)[s.consumer.cursor[p]]).Some?
    && t.cluster.log == s.cluster.log && t.process == s.process && t.cluster.owned == s.cluster.owned
    && Running(t) && FreshTransaction(t) && Unpublished(s, t) && Rewound(Take(s, p), t, rewound)
  }

  lemma RejectedCursor(s: State, p: Partition, t: State, rewound: bool, q: Partition)
    requires RolledBackTake(s, p, t, rewound) && q in Assignment(s)
    ensures q in Assignment(t)
    ensures t.consumer.cursor[q] == if rewound then Start(t.cluster, q) else s.consumer.cursor[q] + if q == p then 1 else 0
    ensures Log(t.cluster, q) == Log(s.cluster, q) && Start(t.cluster, q) == Start(s.cluster, q)
  {
    assert Assignment(t) == Assignment(s);
  }

  lemma RejectedTracked(s: State, p: Partition, t: State, rewound: bool, q: Partition)
    requires Bookkeeping(s) && RolledBackTake(s, p, t, rewound)
    requires q in Held(s) && Tracked(s, q)
    ensures q in Assignment(t)
    ensures Tracked(t, q) <==> rewound || (q != p && Share(s.cluster.pending, q) == [])
  {
    RejectedCursor(s, p, t, rewound, q);
    TrackedAfterRollback(t, q);
    if q == p {
      ExpectedAfterTake(s, p);
    }
  }

  lemma RejectedRefines(s: State, p: Partition, t: State, rewound: bool)
    requires Bookkeeping(s) && ExactlyOnceState(s) && RolledBackTake(s, p, t, rewound)
    ensures ExactlyOnceState(t) <==> (!rewound ==> p !in Held(s) && Untouched(s, Held(s)))
  {
    SameSettled(s, t);
    assert Assignment(t) == Assignment(s);
    assert Held(t) == Held(s);
    forall q | q in Held(s)
      ensures Tracked(t, q) <==> rewound || (q != p && Share(s.cluster.pending, q) == [])
    {
      RejectedTracked(s, p, t, rewound, q);
    }
  }

  lemma RejectedMessage(s: State, p: Partition, reports: seq<bool>, accepted: bool, o: Oracle)
    requires Shape(s) && s.phase.InPoll? && p in Assignment(s) && s.consumer.cursor[p] < |Log(s.cluster, p)|
    requires Rejected(s, p, reports, accepted)
    ensures var t := HandleMessage(s, p, reports, accepted, o);
            && t.cluster.log == s.cluster.log && t.process == s.process && Unpublished(s, t)
            && (Running(t) ==> RolledBackTake(s, p, t, o.rewindAssignment))
            && (!Running(t) ==> t.consumer == NO_CONSUMER)
            && (Running(t) <==> RewindWorks(o))
  {
    hide AbortAndRewind, WithinLog, PositionsValid, Bounded, Share;
    var u := WaitForQueue(Take(s, p), reports);
    assert p in u.consumer.cursor && u.consumer == Take(s, p).consumer;
    AbortAndRewindEffect(u, o);
    RewindAnswers(u, o);
    SameLogs(s, HandleMessage(s, p, reports, accepted, o));
  }

  lemma AcceptedMessage(s: State, p: Partition, reports: seq<bool>, accepted: bool, o: Oracle)
    requires Running(s) && p in Assignment(s) && s.consumer.cursor[p] < |Log(s.cluster, p)|
    requires !Rejected(s, p, reports, accepted)
    ensures var t := HandleMessage(s, p, reports, accepted, o);
            var n := s.consumer.cursor[p];
            && t.consumer.cursor == s.consumer.cursor[p := n + 1]
            && t.cluster == s.cluster.(pending := s.cluster.pending + Tagged(s.process, p, n, Log(s.cluster, p)[n]))
            && t.process == s.process
            && Running(t)
  {
  }

  lemma MessageRefines(s: State, p: Partition, reports: seq<bool>, accepted: bool, o: Oracle)
    requires Shape(s) && s.phase.InPoll? && ExactlyOnceState(s) && p in Assignment(s) && s.consumer.cursor[p] < |Log(s.cluster, p)|
    ensures var t := HandleMessage(s, p, reports, accepted, o);
            ExactlyOnceState(t) <==>
            (Rejected(s, p, reports, accepted) && !o.rewindAssignment && RewindWorks(o) ==> p !in Held(s) && Untouched(s, Held(s)))
  {
    var t := HandleMessage(s, p, reports, accepted, o);
    if Rejected(s, p, reports, accepted) {
      RejectedMessage(s, p, reports, accepted, o);
      if Running(t) {
        RejectedRefines(s, p, t, o.rewindAssignment);
      } else {
        SameSettled(s, t);
      }
    } else {
      AcceptedMessage(s, p, reports, accepted, o);
      ProducedRefines(s, p, t);
    }
  }

  /** Nothing the rest of the world does breaks the refinement. */
  lemma AppendRefines(s: State, p: Partition, r: Record)
    requires Shape(s) && ExactlyOnceState(s)
    ensures ExactlyOnceState(Step(s, Append(p, r)))
  {
    var t := Step(s, Append(p, r));
    forall q
      ensures Settled(t, q)
    {
      assert Settled(s, q);
      ExpectedOfLongerLog(s.process, Log(s.cluster, q), r, q, 0, Start(s.cluster, q));
    }
    forall q | q in Held(t)
      ensures Tracked(t, q)
    {
      assert Tracked(s, q);
      ExpectedOfLongerLog(s.process, Log(s.cluster, q), r, q, Start(s.cluster, q), s.consumer.cursor[q]);
    }
  }

  lemma OthersSettle(s: State, p: Partition, n: nat, q: Partition)
    requires Start(s.cluster, p) + n <= |Log(s.cluster, p)| && Settled(s, q)
    ensures Settled(CommitByOthers(s, p, n), q)
  {
    hide Share, Expected;
    var start, log, t := Start(s.cluster, p), Log(s.cluster, p), CommitByOthers(s, p, n);
    assert Log(t.cluster, q) == Log(s.cluster, q);
    if q == p {
      ExtendsTo(s.process, log, p, s.cluster.output, 0, start, start + n);
    } else {
      ExpectedExtends(s.process, log, p, s.cluster.output, start, start + n, q);
    }
  }

  lemma OthersRefine(s: State, p: Partition, n: nat)
    requires ExactlyOnceState(s) && Enabled(s, OthersCommit(p, n))
    ensures ExactlyOnceState(CommitByOthers(s, p, n))
  {
    var t := CommitByOthers(s, p, n);
    forall q
      ensures Settled(t, q)
    {
      OthersSettle(s, p, n, q);
    }
    forall q | q in Held(t)
      ensures Tracked(t, q)
    {
      assert Tracked(s, q);
    }
  }

  lemma QuietRefines(s: State, e: Event)
    requires Shape(s) && ExactlyOnceState(s) && Enabled(s, e)
    requires e.Evict? || e.DeliveryFailure? || e.Nothing? || e.Crash?
    ensures ExactlyOnceState(Step(s, e))
  {
    var t := Step(s, e);
    SameSettled(s, t);
    SameLogs(s, t);
    forall q | q in Held(t)
      ensures Tracked(t, q)
    {
      assert Tracked(s, q);
    }
  }

  lemma CloseRefines(s: State, lost: bool, ok: bool, o: Oracle)
    requires Shape(s) && ExactlyOnceState(s) && s.phase.AtTop?
    ensures ExactlyOnceState(CloseConsumer(s, lost, ok, o))
  {
    var s1 := if s.consumer.cursor == map[] then s else RevokeCallback(s, Assignment(s), lost, ok, o);
    assert ExactlyOnceState(s1) by {
      RevokeRefines(s, Assignment(s), lost, ok, o);
      assert Held(s) - Assignment(s) == {};
    }
    if Running(s1) {
      SameSettled(s1, Exit(s1, false));
    }
  }

  /** One step from a state where the refinement holds: it holds afterwards if and
      only if the step is clean. */
  lemma StepRefinesIffClean(s: State, e: Event)
    requires Shape(s) && ExactlyOnceState(s)
    ensures ExactlyOnceState(Step(s, e)) <==> Clean(s, e)
  {
    if Enabled(s, e) {
      match e
      case Append(p, r) => AppendRefines(s, p, r);
      case OthersCommit(p, n) => OthersRefine(s, p, n);
      case Turn(now, later, o) => TurnRefines(s, now, later, o);
      case Assigned(ps, ok) => AssignRefines(s, ps, ok);
      case Revoked(ps, lost, ok, o) => RevokeRefines(s, ps, lost, ok, o);
      case Message(p, reports, accepted, o) => MessageRefines(s, p, reports, accepted, o);
      case Stop(lost, ok, o) => CloseRefines(s, lost, ok, o);
      case Evict => QuietRefines(s, e);
      case DeliveryFailure => QuietRefines(s, e);
      case Nothing => QuietRefines(s, e);
      case Crash => QuietRefines(s, e);
      case Started(ready, o) => SameSettled(s, Restart(s, ready, o));
    }
  }

  // ----- every run -----

  /** Every reachable state, whatever fails: positions are valid, a running process
      is inside a transaction, no transactional call is ever made in the wrong state,
      and an open transaction covers no more than the at most 101 messages counted. */
  lemma {:induction false} EveryRunKeepsShape(process: Transform, log: map<Partition, seq<Record>>, es: seq<Event>)
    ensures Shape(Run(Initial(process, log), es))
  {
    if es != [] {
      EveryRunKeepsShape(process, log, es[..|es| - 1]);
      StepKeepsShape(Run(Initial(process, log), es[..|es| - 1]), es[|es| - 1]);
    }
  }

  /** Every state a run passes through refines the exactly-once specification. */
  ghost predicate RefinesThroughout(s: State, es: seq<Event>) {
    ExactlyOnceState(Run(s, es)) && (es != [] ==> RefinesThroughout(s, es[..|es| - 1]))
  }

  /** Every step of a run is clean. */
  ghost predicate CleanThroughout(s: State, es: seq<Event>) {
    es != [] ==> CleanThroughout(s, es[..|es| - 1]) && Clean(Run(s, es[..|es| - 1]), es[|es| - 1])
  }

  lemma InitialRefines(process: Transform, log: map<Partition, seq<Record>>)
    ensures ExactlyOnceState(Initial(process, log))
  {
  }

  /** Exactly-once over every run: committed output is the message function mapped
      over the committed input, and pending output the same over what was read since,
      in every state of the run, if and only if every step of it was clean. */
  lemma {:induction false} ExactlyOnceIffClean(process: Transform, log: map<Partition, seq<Record>>, es: seq<Event>)
    ensures RefinesThroughout(Initial(process, log), es) <==> CleanThroughout(Initial(process, log), es)
  {
    var s0 := Initial(process, log);
    if es == [] {
      InitialRefines(process, log);
    } else {
      var front := es[..|es| - 1];
      ExactlyOnceIffClean(process, log, front);
      EveryRunKeepsShape(process, log, front);
      if RefinesThroughout(s0, front) {
        StepRefinesIffClean(Run(s0, front), es[|es| - 1]);
      }
    }
  }
}
