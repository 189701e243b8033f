/** How the exactly-once example loses messages: what an unclean step does, what becomes
    of a message it skipped, and a run that loses one. */
module ExactlyOnceLoss {
  import opened Decimal
  import opened MessageFunction
  import opened OutputStream
  import opened ExactlyOnce
  import opened ExactlyOnceShape
  import opened ExactlyOnceGuards
  import opened ExactlyOnceRefinement
  import opened ExactlyOnceSafety
  import opened ExactlyOnceScenarios

  /** The output of the message is neither committed nor in the open transaction. */
  ghost predicate Nowhere(s: State, p: Partition, offset: nat) {
    forall e :: e in s.cluster.output + s.cluster.pending ==> !(e.part == p && e.offset == offset)
  }

  /** The consumer has passed a message whose output is nowhere. */
  ghost predicate Skipped(s: State, p: Partition, offset: nat) {
    && p in s.consumer.position && p in s.consumer.cursor
    && Start(s.cluster, p) <= offset < s.consumer.cursor[p]
    && offset < |Log(s.cluster, p)|
    && s.process(Log(s.cluster, p)[offset]).Some?
    && Nowhere(s, p, offset)
  }

  // ----- unclean steps skip -----

  /** A roll-back without a rewind skips what was pending of a partition kept. */
  lemma RollbackSkips(s: State, t: State, p: Partition) returns (offset: nat)
    requires Shape(s) && Sound(s) && Running(s) && p in Held(s) && Share(s.cluster.pending, p) != []
    requires t.process == s.process && t.cluster.log == s.cluster.log && Unpublished(s, t) && t.cluster.pending == []
    requires p in t.consumer.cursor && p in t.consumer.position && t.consumer.cursor[p] >= s.consumer.cursor[p]
    ensures Skipped(t, p, offset)
  {
    var x := Share(s.cluster.pending, p)[0];
    ShareMembers(s.cluster.pending, p, x);
    assert PendingEntrySound(s, x);
    offset := x.offset;
    SameLogs(s, t);
  }

  lemma UncleanTurnSkips(s: State, now: int, later: int, o: Oracle) returns (p: Partition, offset: nat)
    requires Shape(s) && Sound(s) && s.phase.AtTop? && !Clean(s, Turn(now, later, o))
    ensures Skipped(LoopTop(s, now, later, o), p, offset)
  {
    p :| p in Held(s) && Share(s.cluster.pending, p) != [];
    var t := LoopTop(s, now, later, o);
    CommitAndStartNewEffect(s, o);
    TurnAnswers(s, o);
    CommitAnswers(s, o);
    offset := RollbackSkips(s, t, p);
  }

  lemma UncleanRevokeSkips(s: State, ps: set<Partition>, lost: bool, ok: bool, o: Oracle) returns (p: Partition, offset: nat)
    requires Shape(s) && Sound(s) && s.phase.InPoll? && Enabled(s, Revoked(ps, lost, ok, o)) && !Clean(s, Revoked(ps, lost, ok, o))
    ensures Skipped(RevokeCallback(s, ps, lost, ok, o), p, offset)
  {
    p :| p in Held(s) - ps && Share(s.cluster.pending, p) != [];
    EndTransactionEffect(s, lost, o);
    RevokeAnswers(s, ps, lost, ok, o);
    offset := RollbackSkips(s, RevokeCallback(s, ps, lost, ok, o), p);
  }

  /** A refused message of a partition held is itself skipped. */
  lemma RejectedIsSkipped(s: State, p: Partition, t: State)
    requires Shape(s) && Sound(s) && Running(s) && p in Held(s) && RolledBackTake(s, p, t, false)
    ensures Skipped(t, p, s.consumer.cursor[p])
  {
    SameLogs(s, t);
    assert forall e :: e in s.cluster.output && e.part == p ==> e.offset < Start(s.cluster, p);
  }

  lemma UncleanMessageSkips(s: State, q: Partition, reports: seq<bool>, accepted: bool, o: Oracle) returns (p: Partition, offset: nat)
    requires Shape(s) && Sound(s) && Enabled(s, Message(q, reports, accepted, o)) && !Clean(s, Message(q, reports, accepted, o))
    ensures Skipped(HandleMessage(s, q, reports, accepted, o), p, offset)
  {
    var t := HandleMessage(s, q, reports, accepted, o);
    RejectedMessage(s, q, reports, accepted, o);
    if q in Held(s) {
      p, offset := q, s.consumer.cursor[q];
      RejectedIsSkipped(s, q, t);
    } else {
      p :| p in Held(s) && Share(s.cluster.pending, p) != [];
      offset := RollbackSkips(s, t, p);
    }
  }

  /** Every unclean step leaves the consumer past a message whose output is nowhere. */
  lemma UncleanStepSkips(s: State, e: Event) returns (p: Partition, offset: nat)
    requires Shape(s) && Sound(s) && !Clean(s, e)
    ensures Skipped(Step(s, e), p, offset)
  {
    match e
    case Turn(now, later, o) => p, offset := UncleanTurnSkips(s, now, later, o);
    case Revoked(ps, lost, ok, o) => p, offset := UncleanRevokeSkips(s, ps, lost, ok, o);
    case Message(q, reports, accepted, o) => p, offset := UncleanMessageSkips(s, q, reports, accepted, o);
  }

  // ----- what becomes of a skipped message -----

  /** The step commits the open transaction on the brokers. */
  predicate StepCommits(s: State, e: Event) {
    Enabled(s, e) &&
    match e
    case Turn(now, _, o) => CommitDue(s, now) && TakesEffect(s, o)
    case Revoked(_, lost, _, o) => RevokeTakesEffect(s, lost, o)
    case Stop(lost, _, o) => RevokeTakesEffect(s, lost, o)
    case _ => false
  }

  /** The step, if it does not commit, takes the partition back to its committed offset:
      it rewinds, gives the partition up or ends the process; or another member that has
      the partition now processes the message. */
  predicate Restores(s: State, e: Event, p: Partition, offset: nat) {
    Enabled(s, e) &&
    match e
    case OthersCommit(q, n) => q == p && Start(s.cluster, p) + n > offset
    case Turn(now, _, o) => CommitDue(s, now) && !(CommitAnswer(s, o) == RolledBack && !o.rewindAssignment && o.begin == Succeeds)
    case Assigned(_, ok) => !ok
    case Revoked(ps, lost, ok, o) => p in ps || !RevokeRollsBack(s, lost, ok, o)
    case Message(q, reports, accepted, o) => Rejected(s, q, reports, accepted) && !(RewindWorks(o) && !o.rewindAssignment)
    case Stop(_, _, _) => true
    case Crash => true
    case _ => false
  }

  /** What a step makes of a skipped message: lost if it commits, and otherwise still
      skipped unless it restores the partition. */
  ghost predicate Fated(s: State, e: Event, t: State, p: Partition, offset: nat) {
    && (Lost(t, p, offset) <==> StepCommits(s, e))
    && (Skipped(t, p, offset) <==> !StepCommits(s, e) && !Restores(s, e, p, offset))
  }

  /** A commit loses the message: the positions it commits are past it. */
  lemma CommitLoses(s: State, t: State, p: Partition, offset: nat)
    requires Shape(s) && Skipped(s, p, offset) && t.process == s.process && t.cluster.log == s.cluster.log && Published(s, t)
    ensures Lost(t, p, offset)
    ensures !Skipped(t, p, offset)
  {
    PublishedOffsets(s, t);
    SameLogs(s, t);
  }

  /** Nothing is lost where nothing is committed. */
  lemma UnpublishedIsNotLost(s: State, t: State, p: Partition, offset: nat)
    requires Skipped(s, p, offset) && Unpublished(s, t)
    ensures !Lost(t, p, offset)
  {
  }

  /** The partition is where it was and the message still nowhere. */
  lemma StaysSkipped(s: State, t: State, p: Partition, offset: nat)
    requires Skipped(s, p, offset) && Unpublished(s, t) && t.process == s.process && t.cluster.log == s.cluster.log
    requires p in t.consumer.cursor && p in t.consumer.position && t.consumer.cursor[p] >= s.consumer.cursor[p]
    requires t.cluster.pending == [] || t.cluster.pending == s.cluster.pending
    ensures Skipped(t, p, offset)
  {
    SameLogs(s, t);
  }

  lemma TurnFate(s: State, now: int, later: int, o: Oracle, p: Partition, offset: nat)
    requires Shape(s) && s.phase.AtTop? && Skipped(s, p, offset)
    ensures Fated(s, Turn(now, later, o), LoopTop(s, now, later, o), p, offset)
  {
    hide CommitAndStartNew, CommitTransaction, CommitAnswer;
    var t := LoopTop(s, now, later, o);
    if CommitDue(s, now) {
      CommitAndStartNewEffect(s, o);
      TurnAnswers(s, o);
      CommitAnswers(s, o);
      if TakesEffect(s, o) {
        CommitLoses(s, t, p, offset);
      } else {
        UnpublishedIsNotLost(s, t, p, offset);
        if TurnSurvives(s, o) && !o.rewindAssignment {
          StaysSkipped(s, t, p, offset);
        }
      }
    } else {
      UnpublishedIsNotLost(s, t, p, offset);
      StaysSkipped(s, t, p, offset);
    }
  }

  lemma RevokeFate(s: State, ps: set<Partition>, lost: bool, ok: bool, o: Oracle, p: Partition, offset: nat)
    requires Shape(s) && s.phase.InPoll? && Skipped(s, p, offset) && Enabled(s, Revoked(ps, lost, ok, o))
    ensures Fated(s, Revoked(ps, lost, ok, o), RevokeCallback(s, ps, lost, ok, o), p, offset)
  {
    var t := RevokeCallback(s, ps, lost, ok, o);
    EndTransactionEffect(s, lost, o);
    RevokeAnswers(s, ps, lost, ok, o);
    CommitAnswers(s, o);
    if RevokeTakesEffect(s, lost, o) {
      CommitLoses(s, t, p, offset);
    } else {
      UnpublishedIsNotLost(s, t, p, offset);
      if RevokeRollsBack(s, lost, ok, o) && p !in ps {
        StaysSkipped(s, t, p, offset);
      }
    }
  }

  lemma CloseFate(s: State, lost: bool, ok: bool, o: Oracle, p: Partition, offset: nat)
    requires Shape(s) && s.phase.AtTop? && Skipped(s, p, offset)
    ensures Fated(s, Stop(lost, ok, o), CloseConsumer(s, lost, ok, o), p, offset)
  {
    hide CloseConsumer, CommitAnswer;
    var t := CloseConsumer(s, lost, ok, o);
    CloseEffect(s, lost, ok, o);
    if RevokeTakesEffect(s, lost, o) {
      CommitLoses(s, t, p, offset);
    } else {
      UnpublishedIsNotLost(s, t, p, offset);
    }
  }

  lemma CloseEffect(s: State, lost: bool, ok: bool, o: Oracle)
    requires Shape(s) && s.phase.AtTop? && s.consumer.cursor != map[]
    ensures var t := CloseConsumer(s, lost, ok, o);
            && t.process == s.process && t.cluster.log == s.cluster.log && t.consumer == NO_CONSUMER
            && (if RevokeTakesEffect(s, lost, o) then Published(s, t) else Unpublished(s, t))
  {
    EndTransactionEffect(s, lost, o);
    RevokeAnswers(s, Assignment(s), lost, ok, o);
  }

  lemma AcceptedFate(s: State, q: Partition, reports: seq<bool>, accepted: bool, o: Oracle, p: Partition, offset: nat)
    requires Shape(s) && Skipped(s, p, offset) && Enabled(s, Message(q, reports, accepted, o)) && !Rejected(s, q, reports, accepted)
    ensures Fated(s, Message(q, reports, accepted, o), HandleMessage(s, q, reports, accepted, o), p, offset)
  {
    var t := HandleMessage(s, q, reports, accepted, o);
    AcceptedMessage(s, q, reports, accepted, o);
    SameLogs(s, t);
  }

  lemma RejectedFate(s: State, q: Partition, reports: seq<bool>, accepted: bool, o: Oracle, p: Partition, offset: nat)
    requires Shape(s) && Skipped(s, p, offset) && Enabled(s, Message(q, reports, accepted, o)) && Rejected(s, q, reports, accepted)
    ensures Fated(s, Message(q, reports, accepted, o), HandleMessage(s, q, reports, accepted, o), p, offset)
  {
    var t := HandleMessage(s, q, reports, accepted, o);
    RejectedMessage(s, q, reports, accepted, o);
    UnpublishedIsNotLost(s, t, p, offset);
    if RewindWorks(o) && !o.rewindAssignment {
      StaysSkipped(s, t, p, offset);
    }
  }

  /** Another member processes the skipped message: its output is committed. */
  lemma OthersRestore(s: State, p: Partition, n: nat, offset: nat)
    requires Skipped(s, p, offset) && offset < Start(s.cluster, p) + n <= |Log(s.cluster, p)|
    ensures var t := CommitByOthers(s, p, n); !Skipped(t, p, offset) && !Lost(t, p, offset)
  {
    var start, log := Start(s.cluster, p), Log(s.cluster, p);
    var e := Entry(p, offset, s.process(log[offset]).value);
    ExpectedHas(s.process, log, p, start, start + n, offset);
    assert e in CommitByOthers(s, p, n).cluster.output;
  }

  /** Other members process other messages: the message is still nowhere. */
  lemma OthersPassBy(s: State, q: Partition, n: nat, p: Partition, offset: nat)
    requires Skipped(s, p, offset) && Start(s.cluster, q) + n <= |Log(s.cluster, q)|
    requires q == p ==> Start(s.cluster, p) + n <= offset
    ensures var t := CommitByOthers(s, q, n); Skipped(t, p, offset) && !Lost(t, p, offset)
  {
    var start, log, t := Start(s.cluster, q), Log(s.cluster, q), CommitByOthers(s, q, n);
    ExpectedParts(s.process, log, q, start, start + n);
    assert Log(t.cluster, p) == Log(s.cluster, p);
    assert Start(t.cluster, p) == if q == p then start + n else Start(s.cluster, p);
    forall e | e in t.cluster.output + t.cluster.pending
      ensures !(e.part == p && e.offset == offset)
    {
      assert e in s.cluster.output + s.cluster.pending || e in Expected(s.process, log, q, start, start + n);
    }
  }

  lemma OthersFate(s: State, q: Partition, n: nat, p: Partition, offset: nat)
    requires Shape(s) && Skipped(s, p, offset) && Enabled(s, OthersCommit(q, n))
    ensures Fated(s, OthersCommit(q, n), CommitByOthers(s, q, n), p, offset)
  {
    if q == p && Start(s.cluster, p) + n > offset {
      OthersRestore(s, p, n, offset);
    } else {
      OthersPassBy(s, q, n, p, offset);
    }
  }

  lemma QuietFate(s: State, e: Event, p: Partition, offset: nat)
    requires Shape(s) && Skipped(s, p, offset) && Enabled(s, e)
    requires e.Append? || e.Evict? || e.DeliveryFailure? || e.Assigned? || e.Nothing? || e.Crash?
    ensures Fated(s, e, Step(s, e), p, offset)
  {
    hide LoopTop, HandleMessage, RevokeCallback, CloseConsumer, Restart, CommitByOthers;
    var t := Step(s, e);
    assert Log(s.cluster, p) <= Log(t.cluster, p);
    UnpublishedIsNotLost(s, t, p, offset);
  }

  /** Every step from a state with a skipped message: the message is lost exactly if the
      step commits, and stays skipped exactly if the step neither commits nor restores. */
  lemma StepDecides(s: State, e: Event, p: Partition, offset: nat)
    requires Shape(s) && Skipped(s, p, offset)
    ensures Fated(s, e, Step(s, e), p, offset)
  {
    assert Running(s);
    if Enabled(s, e) {
      match e
      case OthersCommit(q, n) => OthersFate(s, q, n, p, offset);
      case Turn(now, later, o) => TurnFate(s, now, later, o, p, offset);
      case Revoked(ps, lost, ok, o) => RevokeFate(s, ps, lost, ok, o, p, offset);
      case Message(q, reports, accepted, o) =>
        if Rejected(s, q, reports, accepted) {
          RejectedFate(s, q, reports, accepted, o, p, offset);
        } else {
          AcceptedFate(s, q, reports, accepted, o, p, offset);
        }
      case Stop(lost, ok, o) => CloseFate(s, lost, ok, o, p, offset);
      case _ => QuietFate(s, e, p, offset);
    }
  }

  // ----- runs -----

  datatype Fate = Open | Committed | Restored

  /** Which comes first in a run: a step that commits, or one that restores. */
  function FateOf(s: State, es: seq<Event>, p: Partition, offset: nat): Fate {
    if es == [] then Open
    else
      var before := FateOf(s, es[..|es| - 1], p, offset);
      var s1 := Run(s, es[..|es| - 1]);
      if before != Open then before
      else if StepCommits(s1, es[|es| - 1]) then Fate.Committed
      else if Restores(s1, es[|es| - 1], p, offset) then Restored
      else Open
  }

  /** From a skipped message on, in every run: as long as no step commits or restores, it
      stays skipped; if a commit comes first, it is lost for good. */
  lemma {:induction false} SkippedUntilDecided(s: State, es: seq<Event>, p: Partition, offset: nat)
    requires Shape(s) && Sound(s) && Skipped(s, p, offset)
    ensures var t := Run(s, es);
            && Shape(t) && Sound(t)
            && (FateOf(s, es, p, offset) == Open ==> Skipped(t, p, offset))
            && (FateOf(s, es, p, offset) == Fate.Committed ==> Lost(t, p, offset))
  {
    if es != [] {
      var front, e := es[..|es| - 1], es[|es| - 1];
      var s1 := Run(s, front);
      SkippedUntilDecided(s, front, p, offset);
      StepKeepsShape(s1, e);
      StepIsSound(s1, e);
      if FateOf(s, front, p, offset) == Open {
        StepDecides(s1, e, p, offset);
      } else if FateOf(s, front, p, offset) == Fate.Committed {
        StepKeepsLoss(s1, e, p, offset);
      }
    }
  }

  /** Where a restoring step comes first there is a moment at which the message is
      neither skipped nor lost. */
  lemma {:induction false} RestoredOnce(s: State, es: seq<Event>, p: Partition, offset: nat) returns (k: nat)
    requires Shape(s) && Sound(s) && Skipped(s, p, offset) && FateOf(s, es, p, offset) == Restored
    ensures k <= |es| && !Skipped(Run(s, es[..k]), p, offset) && !Lost(Run(s, es[..k]), p, offset)
  {
    var front := es[..|es| - 1];
    if FateOf(s, front, p, offset) == Restored {
      k := RestoredOnce(s, front, p, offset);
      assert es[..k] == front[..k];
    } else {
      k := |es|;
      assert es[..k] == es;
      SkippedUntilDecided(s, front, p, offset);
      StepDecides(Run(s, front), es[|es| - 1], p, offset);
    }
  }

  /** After every unclean step there is a message that every continuation loses in which
      a commit takes effect before the partition is restored. */
  lemma UncleanStepLosesMessages(s: State, e: Event) returns (p: Partition, offset: nat)
    requires Shape(s) && Sound(s) && !Clean(s, e)
    ensures Skipped(Step(s, e), p, offset)
    ensures forall es :: FateOf(Step(s, e), es, p, offset) == Fate.Committed ==> Lost(Run(Step(s, e), es), p, offset)
  {
    p, offset := UncleanStepSkips(s, e);
    StepKeepsShape(s, e);
    StepIsSound(s, e);
    forall es | FateOf(Step(s, e), es, p, offset) == Fate.Committed
      ensures Lost(Run(Step(s, e), es), p, offset)
    {
      SkippedUntilDecided(Step(s, e), es, p, offset);
    }
  }

  /** The next commit that goes through loses a skipped message. */
  lemma CommitLosesTheSkipped(s: State, now: int, later: int, o: Oracle, p: Partition, offset: nat)
    requires Shape(s) && s.phase.AtTop? && Skipped(s, p, offset) && CommitDue(s, now) && CommitTransaction(s, o).1
    ensures Lost(LoopTop(s, now, later, o), p, offset)
  {
    CommitAnswers(s, o);
    TurnFate(s, now, later, o, p, offset);
  }

  /** Whenever a revoke leaves the application running after an aborted commit or a lost
      assignment, and a partition it keeps had output in the transaction, every
      continuation loses that output for good in which a commit takes effect before the
      partition is restored. */
  lemma UncleanRevokeLosesMessages(s: State, ps: set<Partition>, lost: bool, ok: bool, o: Oracle, p: Partition) returns (offset: nat)
    requires Shape(s) && Sound(s) && Enabled(s, Revoked(ps, lost, ok, o)) && RevokeRollsBack(s, lost, ok, o)
    requires p in Held(s) - ps && Share(s.cluster.pending, p) != []
    ensures var t := RevokeCallback(s, ps, lost, ok, o);
            Skipped(t, p, offset) && forall es :: FateOf(t, es, p, offset) == Fate.Committed ==> Lost(Run(t, es), p, offset)
  {
    var t := RevokeCallback(s, ps, lost, ok, o);
    EndTransactionEffect(s, lost, o);
    RevokeAnswers(s, ps, lost, ok, o);
    offset := RollbackSkips(s, t, p);
    StepKeepsShape(s, Revoked(ps, lost, ok, o));
    StepIsSound(s, Revoked(ps, lost, ok, o));
    forall es | FateOf(t, es, p, offset) == Fate.Committed
      ensures Lost(Run(t, es), p, offset)
    {
      SkippedUntilDecided(t, es, p, offset);
    }
  }

  // ----- a losing run -----

  /** The brokers refuse the commit, everything else succeeds. */
  const COMMIT_REFUSED := ALL_WELL.(commit := Aborts)

  /** A run of eight events that loses a message: partition 1 is revoked from a member
      that also has partition 0 with a message in the open transaction, the commit is
      refused, partition 0 is not rewound, and the next commit goes through. */
  const LOSING_RUN: seq<Event> := [
    Started(true, ALL_WELL),
    Turn(0, 0, ALL_WELL),
    Assigned({0, 1}, true),
    Message(0, [], true, ALL_WELL),
    Turn(0, 0, ALL_WELL),
    Revoked({1}, false, true, COMMIT_REFUSED),
    Nothing,
    Turn(5, 5, ALL_WELL)]

  const ONE_MESSAGE: map<Partition, seq<Record>> := map[0 := [Record("k", "1")]]

  lemma RunOneMore(s: State, es: seq<Event>, a: Event)
    ensures Run(s, es + [a]) == Step(Run(s, es), a)
  {
    assert (es + [a])[..|es|] == es;
  }

  lemma RunTwoMore(s: State, es: seq<Event>, a: Event, b: Event)
    ensures Run(s, es + [a, b]) == Step(Step(Run(s, es), a), b)
  {
    var more := es + [a];
    assert es + [a, b] == more + [b];
    RunOneMore(s, more, b);
    assert Run(s, more) == Step(Run(s, es), a) by {
      RunOneMore(s, es, a);
    }
  }

  lemma RunFourMore(s: State, es: seq<Event>, a: Event, b: Event, c: Event, d: Event)
    ensures Run(s, es + [a, b, c, d]) == Step(Step(Step(Step(Run(s, es), a), b), c), d)
  {
    RunTwoMore(s, es, a, b);
    RunTwoMore(s, es + [a, b], c, d);
    assert es + [a, b] + [c, d] == es + [a, b, c, d];
  }

  /** The process has started and polls. */
  lemma LosingRunStarts()
    ensures Step(Step(Initial(Emit, ONE_MESSAGE), LOSING_RUN[0]), LOSING_RUN[1])
            == State(Emit, Cluster(ONE_MESSAGE, map[], [], [], map[], InTxn, {}), NO_CONSUMER, 0, 0, 0, InPoll)
  {
    hide RevokeCallback, CloseConsumer, CommitByOthers, HandleMessage, CommitAndStartNew, AssignCallback;
  }

  /** It is assigned two partitions and has the message of one in its transaction. */
  lemma LosingRunReads(s: State)
    requires s == State(Emit, Cluster(ONE_MESSAGE, map[], [], [], map[], InTxn, {}), NO_CONSUMER, 0, 0, 0, InPoll)
    ensures var t := Step(Step(s, LOSING_RUN[2]), LOSING_RUN[3]);
            && t.process == Emit
            && t.cluster == Cluster(ONE_MESSAGE, map[], [], [Entry(0, 0, Output("k", "1"))], map[], InTxn, {0, 1})
            && t.consumer == Consumer(map[0 := 1, 1 := 0], map[0 := 1])
            && t.msgcnt == 1 && t.lastCommit == 0 && t.phase == AtTop
  {
    hide RevokeCallback, CloseConsumer, CommitByOthers, AbortAndRewind, LoopTop, Restart;
    EmittedValueIsAFixpoint("k", 1);
    assert Numeral(1) == "1";
  }

  /** The first half of the losing run, up to the message in the open transaction. */
  lemma LosingRunFirstHalf()
    ensures var s := Run(Initial(Emit, ONE_MESSAGE), LOSING_RUN[..4]);
            && s.process == Emit
            && s.cluster == Cluster(ONE_MESSAGE, map[], [], [Entry(0, 0, Output("k", "1"))], map[], InTxn, {0, 1})
            && s.consumer == Consumer(map[0 := 1, 1 := 0], map[0 := 1])
            && s.msgcnt == 1 && s.lastCommit == 0 && s.phase == AtTop
  {
    hide Step;
    var s0 := Initial(Emit, ONE_MESSAGE);
    LosingRunStarts();
    LosingRunReads(Step(Step(s0, LOSING_RUN[0]), LOSING_RUN[1]));
    RunFourMore(s0, [], LOSING_RUN[0], LOSING_RUN[1], LOSING_RUN[2], LOSING_RUN[3]);
    assert LOSING_RUN[..4] == [] + [LOSING_RUN[0], LOSING_RUN[1], LOSING_RUN[2], LOSING_RUN[3]];
  }

  /** Partition 1 is revoked, the commit is refused, and nothing is rewound. */
  lemma LosingRunRevokes(s: State)
    requires s.process == Emit
    requires s.cluster == Cluster(ONE_MESSAGE, map[], [], [Entry(0, 0, Output("k", "1"))], map[], InTxn, {0, 1})
    requires s.consumer == Consumer(map[0 := 1, 1 := 0], map[0 := 1])
    requires s.msgcnt == 1 && s.lastCommit == 0 && s.phase == AtTop
    ensures var t := Step(Step(s, LOSING_RUN[4]), LOSING_RUN[5]);
            && t.process == Emit && t.cluster == Cluster(ONE_MESSAGE, map[], [], [], map[], InTxn, {0})
            && t.consumer == Consumer(map[0 := 1], map[0 := 1])
            && t.msgcnt == 1 && t.lastCommit == 0 && t.phase == InPoll
  {
    hide HandleMessage, CloseConsumer, Restart, AssignCallback, CommitByOthers;
    var s6 := Step(Step(s, LOSING_RUN[4]), LOSING_RUN[5]);
    assert s6.consumer == Consumer(map[0 := 1], map[0 := 1]);
    assert s6.cluster.owned == {0};
  }

  /** The next commit goes through. */
  lemma LosingRunCommits(s: State)
    requires s.process == Emit && s.cluster == Cluster(ONE_MESSAGE, map[], [], [], map[], InTxn, {0})
    requires s.consumer == Consumer(map[0 := 1], map[0 := 1]) && s.msgcnt == 1 && s.lastCommit == 0 && s.phase == InPoll
    ensures var t := Step(Step(s, LOSING_RUN[6]), LOSING_RUN[7]);
            t.cluster.output == [] && t.cluster.committed == map[0 := 1] && t.process == Emit && t.cluster.log == ONE_MESSAGE
  {
    hide HandleMessage, CloseConsumer, Restart, AssignCallback, CommitByOthers, RevokeCallback;
    var s7 := Step(s, LOSING_RUN[6]);
    assert 0 in s7.consumer.cursor && 0 in s7.consumer.position;
    assert CommitTransaction(s7, ALL_WELL).1;
  }

  /** The refinement does not hold in every run: after this one the group has moved
      past a message with an output, and the output was never committed. */
  lemma LosingRunLosesAMessage()
    ensures var s := Run(Initial(Emit, ONE_MESSAGE), LOSING_RUN); Lost(s, 0, 0) && !Settled(s, 0)
  {
    hide Step;
    var s0 := Initial(Emit, ONE_MESSAGE);
    LosingRunFirstHalf();
    var front := LOSING_RUN[..4];
    var s4 := Run(s0, front);
    LosingRunRevokes(s4);
    LosingRunCommits(Step(Step(s4, LOSING_RUN[4]), LOSING_RUN[5]));
    RunFourMore(s0, front, LOSING_RUN[4], LOSING_RUN[5], LOSING_RUN[6], LOSING_RUN[7]);
    assert LOSING_RUN == front + [LOSING_RUN[4], LOSING_RUN[5], LOSING_RUN[6], LOSING_RUN[7]];
    var s := Run(s0, LOSING_RUN);
    EveryRunKeepsShape(Emit, ONE_MESSAGE, LOSING_RUN);
    NothingCommittedOfOne(s);
  }

  lemma NothingCommittedOfOne(s: State)
    requires Shape(s) && s.process == Emit && s.cluster.log == ONE_MESSAGE
    requires s.cluster.output == [] && s.cluster.committed == map[0 := 1]
    ensures Lost(s, 0, 0) && !Settled(s, 0)
  {
    EmittedValueIsAFixpoint("k", 1);
    assert Numeral(1) == "1";
    assert Log(s.cluster, 0) == [Record("k", "1")];
    assert Expected(Emit, Log(s.cluster, 0), 0, 0, 1) != [];
  }
}
