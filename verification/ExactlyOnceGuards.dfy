/** How the commits and roll-backs of the exactly-once step system end, told from the
    state before the call and the outcomes of the library calls alone. */
module ExactlyOnceGuards {
  import opened MessageFunction
  import opened OutputStream
  import opened ExactlyOnce
  import opened ExactlyOnceShape

  /** What comes of `commit_transaction`: it returns 1, it returns 0, or the process ends,
      with the commit applied on the brokers or not. */
  datatype Answer = GoesThrough | RolledBack | ProcessEnds(applied: bool)

  function Withdrawn(o: Oracle): Answer {
    if o.abort == Succeeds then RolledBack else ProcessEnds(false)
  }

  /** There are offsets to send, and the brokers or the call refuse them. */
  predicate OffsetsRefused(s: State, o: Oracle) {
    s.consumer.position != map[] &&
    (s.cluster.txn == MustAbort || o.send == Aborts || !(s.consumer.cursor.Keys <= s.cluster.owned))
  }

  function CommitAnswer(s: State, o: Oracle): Answer {
    if !o.assignment || s.consumer.cursor == map[] then Withdrawn(o)
    else if !o.position || (s.consumer.position != map[] && o.send == Fails) then ProcessEnds(false)
    else if OffsetsRefused(s, o) then Withdrawn(o)
    else CommitCallAnswer(s, o)
  }

  /** The transaction is committed on the brokers, whatever becomes of the process. */
  predicate TakesEffect(s: State, o: Oracle) {
    CommitAnswer(s, o) == GoesThrough || CommitAnswer(s, o) == ProcessEnds(true)
  }

  /** The answer is what the call does. */
  lemma CommitAnswers(s: State, o: Oracle)
    requires Running(s) && s.cluster.txn != Ready && s.cluster.txnOffsets == map[]
    ensures var (t, committed) := CommitTransaction(s, o);
            && (committed <==> CommitAnswer(s, o) == GoesThrough)
            && (Running(t) <==> !CommitAnswer(s, o).ProcessEnds?)
            && (if TakesEffect(s, o) then Published(s, t) else Unpublished(s, t))
  {
    CommitOutcome(s, o);
    if o.assignment && s.consumer.cursor != map[] && o.position {
      SendAnswers(s, o);
    }
  }

  /** What committing comes to once the offsets are sent. */
  function CommitCallAnswer(s: State, o: Oracle): Answer {
    if s.cluster.txn == MustAbort then (if o.commit == Fails then ProcessEnds(false) else Withdrawn(o))
    else match o.commit
      case Succeeds => GoesThrough
      case Aborts => Withdrawn(o)
      case Fails => ProcessEnds(o.applied)
  }

  lemma CommitCallAnswers(s: State, o: Oracle)
    requires Running(s) && s.cluster.txn != Ready
    ensures var (t, committed) := AfterSend(s, NoError, o);
            && (committed <==> CommitCallAnswer(s, o) == GoesThrough)
            && (Running(t) <==> !CommitCallAnswer(s, o).ProcessEnds?)
            && (if CommitCallAnswer(s, o) == GoesThrough || CommitCallAnswer(s, o) == ProcessEnds(true)
                then t.cluster.output == s.cluster.output + s.cluster.pending && t.cluster.committed == s.cluster.committed + s.cluster.txnOffsets
                else Unpublished(s, t))
  {
  }

  lemma SendAnswers(s: State, o: Oracle)
    requires Running(s) && s.cluster.txn != Ready && s.cluster.txnOffsets == map[]
    requires o.assignment && s.consumer.cursor != map[] && o.position
    ensures var (t, committed) := CommitTransaction(s, o);
            && (committed <==> CommitAnswer(s, o) == GoesThrough)
            && (Running(t) <==> !CommitAnswer(s, o).ProcessEnds?)
            && (if TakesEffect(s, o) then Published(s, t) else Unpublished(s, t))
  {
    var (c, err) := SendOffsets(s.cluster, s.consumer.position, s.consumer.cursor.Keys, o.send);
    SendOutcome(s.cluster, s.consumer.position, s.consumer.cursor.Keys, o.send);
    if err == NoError {
      CommitCallAnswers(s.(cluster := c), o);
      assert !OffsetsRefused(s, o);
    } else if err == RequiresAbort {
      AbortOutcome(s.(cluster := c), o);
      assert OffsetsRefused(s, o);
    }
  }

  /** Aborting, rewinding and beginning again all work, with something to rewind. */
  predicate RewindWorks(o: Oracle) {
    o.abort == Succeeds && (o.rewindAssignment ==> o.rewindCommitted && o.rewindSeek) && o.begin == Succeeds
  }

  lemma RewindAnswers(s: State, o: Oracle)
    requires Running(s) && s.cluster.txn != Ready && s.consumer.cursor != map[]
    ensures Running(AbortAndRewind(s, o)) <==> RewindWorks(o)
  {
  }

  /** The loop top goes on after a commit that is due. */
  predicate TurnSurvives(s: State, o: Oracle) {
    && o.begin == Succeeds
    && (CommitAnswer(s, o) == GoesThrough ||
        (CommitAnswer(s, o) == RolledBack &&
         (o.rewindAssignment && s.consumer.cursor != map[] ==> o.rewindCommitted && o.rewindSeek)))
  }

  lemma TurnAnswers(s: State, o: Oracle)
    requires Running(s) && s.cluster.txn != Ready && s.cluster.txnOffsets == map[]
    ensures var t := CommitAndStartNew(s, o);
            && (Running(t) <==> TurnSurvives(s, o))
            && (if TakesEffect(s, o) then Published(s, t) else Unpublished(s, t))
  {
    CommitAnswers(s, o);
    CommitOutcome(s, o);
    var (s1, committed) := CommitTransaction(s, o);
    if Running(s1) && !committed {
      RewindOutcome(s1, o);
    }
  }

  /** The transaction a revoke ends is rolled back and the process goes on. */
  predicate RevokeRollsBack(s: State, lost: bool, ok: bool, o: Oracle) {
    (if lost then o.abort == Succeeds else CommitAnswer(s, o) == RolledBack) && o.begin == Succeeds && ok
  }

  predicate RevokeTakesEffect(s: State, lost: bool, o: Oracle) {
    !lost && TakesEffect(s, o)
  }

  lemma EndAnswers(s: State, lost: bool, o: Oracle)
    requires Running(s) && s.cluster.txn != Ready && s.cluster.txnOffsets == map[]
    ensures var t := EndTransaction(s, lost, o);
            && (Running(t) <==> (if lost then o.abort == Succeeds else !CommitAnswer(s, o).ProcessEnds?) && o.begin == Succeeds)
            && (if RevokeTakesEffect(s, lost, o) then Published(s, t) else Unpublished(s, t))
  {
    if lost {
      AbortOutcome(s, o);
    } else {
      CommitAnswers(s, o);
      CommitOutcome(s, o);
    }
  }

  lemma RevokeAnswers(s: State, ps: set<Partition>, lost: bool, ok: bool, o: Oracle)
    requires Running(s) && s.cluster.txn != Ready && s.cluster.txnOffsets == map[]
    ensures var t := RevokeCallback(s, ps, lost, ok, o);
            && (Running(t) && (lost || !CommitTransaction(s, o).1) <==> RevokeRollsBack(s, lost, ok, o))
            && (if RevokeTakesEffect(s, lost, o) then Published(s, t) else Unpublished(s, t))
  {
    EndAnswers(s, lost, o);
    CommitAnswers(s, o);
  }
}
