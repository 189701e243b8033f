/** Consequences of the step system's laws in particular situations: when the
    refinement is guaranteed, what a crash costs, and what a commit without faults
    achieves. */
module ExactlyOnceScenarios {
  import opened Decimal
  import opened MessageFunction
  import opened OutputStream
  import opened ExactlyOnce
  import opened ExactlyOnceShape
  import opened ExactlyOnceGuards
  import opened ExactlyOnceRefinement
  import opened ExactlyOnceSafety

  /** Every call succeeds. */
  const ALL_WELL := Oracle(true, true, Succeeds, Succeeds, false, Succeeds, Succeeds, true, true, true)

  /** The environment behaves as the example relies on it to: an assignment can always
      be queried, and whenever a revoke finds the transaction aborted, the whole
      assignment is handed back. */
  ghost predicate WellBehaved(s: State, e: Event) {
    match e
    case Turn(_, _, o) => o.rewindAssignment
    case Message(_, _, _, o) => o.rewindAssignment
    case Revoked(ps, lost, ok, o) => RevokeRollsBack(s, lost, ok, o) ==> ps == Assignment(s)
    case _ => true
  }

  lemma WellBehavedIsClean(s: State, e: Event)
    requires WellBehaved(s, e)
    ensures Clean(s, e)
  {
    if e.Revoked? {
      assert Held(s) - Assignment(s) == {};
    }
  }

  ghost predicate WellBehavedThroughout(s: State, es: seq<Event>) {
    es != [] ==> WellBehavedThroughout(s, es[..|es| - 1]) && WellBehaved(Run(s, es[..|es| - 1]), es[|es| - 1])
  }

  /** Exactly-once for every run in which the environment is well behaved, with any
      crashes, restarts, evictions, aborts and commits by other members in it. */
  lemma {:induction false} WellBehavedRunsAreExactlyOnce(process: Transform, log: map<Partition, seq<Record>>, es: seq<Event>)
    requires WellBehavedThroughout(Initial(process, log), es)
    ensures RefinesThroughout(Initial(process, log), es)
  {
    WellBehavedRunsAreClean(Initial(process, log), es);
    ExactlyOnceIffClean(process, log, es);
  }

  lemma {:induction false} WellBehavedRunsAreClean(s: State, es: seq<Event>)
    requires WellBehavedThroughout(s, es)
    ensures CleanThroughout(s, es)
  {
    if es != [] {
      WellBehavedRunsAreClean(s, es[..|es| - 1]);
      WellBehavedIsClean(Run(s, es[..|es| - 1]), es[|es| - 1]);
    }
  }

  /** A process that has died and a new one, up to its first poll. */
  function Reborn(s: State, now: int, later: int): State {
    LoopTop(Restart(Exit(s, false), true, ALL_WELL), now, later, ALL_WELL)
  }

  lemma RebornIsEmpty(s: State, now: int, later: int)
    requires Shape(s) && Running(s)
    ensures var t := Reborn(s, now, later);
            && Shape(t) && t.phase.InPoll?
            && t.cluster == s.cluster.(owned := {}, pending := [], txnOffsets := map[], txn := InTxn)
            && t.process == s.process && t.consumer == NO_CONSUMER
  {
    var s1 := Exit(s, false);
    var s2 := Restart(s1, true, ALL_WELL);
    ExitKeepsShape(s);
    RestartKeepsShape(s1, true, ALL_WELL);
    TurnKeepsShape(s2, now, later, ALL_WELL);
  }

  /** A crash at any moment costs nothing that was committed and keeps nothing that
      was not: a new process that is assigned any partitions reads each of them from
      its committed offset, into an empty transaction. So nothing that was skipped and
      not yet committed stays skipped, and what is committed is as right as it was. */
  lemma CrashRecovery(s: State, now: int, later: int, ps: set<Partition>)
    requires Shape(s) && Running(s)
    ensures var t := AssignCallback(Reborn(s, now, later), ps, true);
            && t.cluster.output == s.cluster.output && t.cluster.committed == s.cluster.committed
            && t.cluster.pending == []
            && Assignment(t) == ps && Held(t) == ps
            && (forall p :: p in ps ==> t.consumer.cursor[p] == Start(s.cluster, p) && Tracked(t, p))
            && (forall p :: Settled(t, p) <==> Settled(s, p))
  {
    RebornIsEmpty(s, now, later);
    var t := AssignCallback(Reborn(s, now, later), ps, true);
    SameLogs(s, t);
    forall p
      ensures Settled(t, p) <==> Settled(s, p)
    {
    }
  }

  /** A due commit without faults, by a member that still owns what it reads, commits
      everything read so far: offsets are where the consumer is, and the output is
      complete up to there. */
  lemma FaultFreeCommit(s: State, now: int, later: int)
    requires Shape(s) && s.phase.AtTop? && ExactlyOnceState(s)
    requires CommitDue(s, now) && s.cluster.txn == InTxn
    requires Assignment(s) != {} && Assignment(s) <= s.cluster.owned
    ensures var t := LoopTop(s, now, later, ALL_WELL);
            && Running(t) && t.msgcnt == 0 && t.lastCommit == later
            && t.consumer == s.consumer
            && (forall p :: p in Assignment(s) ==> Start(t.cluster, p) == s.consumer.cursor[p])
            && (forall p :: p in Assignment(s) ==>
                  Share(t.cluster.output, p) == Expected(s.process, Log(s.cluster, p), p, 0, s.consumer.cursor[p]))
  {
    var t := LoopTop(s, now, later, ALL_WELL);
    var s1 := CommitAndStartNew(s, ALL_WELL);
    CommitGoesThrough(s);
    CommitAndStartNewEffect(s, ALL_WELL);
    PublishedOffsets(s, s1);
    PublishSettles(s, s1);
    SameLogs(s, s1);
    forall p | p in Assignment(s)
      ensures Share(s1.cluster.output, p) == Expected(s.process, Log(s.cluster, p), p, 0, s.consumer.cursor[p])
    {
      assert Settled(s1, p);
    }
  }

  lemma CommitGoesThrough(s: State)
    requires Running(s) && s.cluster.txn == InTxn && s.cluster.txnOffsets == map[]
    requires Assignment(s) != {} && Assignment(s) <= s.cluster.owned
    ensures CommitTransaction(s, ALL_WELL).1 && Running(CommitAndStartNew(s, ALL_WELL))
  {
    assert s.consumer.cursor != map[];
  }
}
