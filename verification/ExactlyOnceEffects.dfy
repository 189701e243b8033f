/** What every step of the exactly-once program does to the whole state, told from the
    state before and the outcomes of the library calls alone. */
module ExactlyOnceEffects {
  import opened MessageFunction
  import opened OutputStream
  import opened ExactlyOnce
  import opened ExactlyOnceShape
  import opened ExactlyOnceGuards
  import opened ExactlyOnceRefinement

  /** The brokers when the open transaction is over, with or without effect, and the next
      one has begun. */
  function Renewed(s: State, effect: bool): Cluster {
    var c := s.cluster;
    Cluster(c.log,
            if effect then c.committed + s.consumer.position else c.committed,
            if effect then c.output + c.pending else c.output,
            [], map[], InTxn, c.owned)
  }

  /** A consumer with the same assignment, each partition at its committed offset, or the
      beginning, and without a position. */
  ghost predicate AtCommitted(committed: map<Partition, nat>, parts: set<Partition>, k: Consumer) {
    && k.cursor.Keys == parts && k.position == map[]
    && forall p :: p in parts ==> k.cursor[p] == if p in committed then committed[p] else 0
  }

  /** The process has ended by itself, its transaction in effect or not. */
  ghost predicate Ended(s: State, t: State, effect: bool) {
    && t.process == s.process && t.cluster.log == s.cluster.log
    && t.cluster.committed == (if effect then s.cluster.committed + s.consumer.position else s.cluster.committed)
    && t.cluster.output == (if effect then s.cluster.output + s.cluster.pending else s.cluster.output)
    && t.cluster.owned == {} && t.consumer == Consumer(map[], map[]) && t.phase == Exited(false)
  }

  // ----- the transaction -----

  lemma CommitStep(s: State, o: Oracle)
    requires Running(s) && s.cluster.txn != Ready && s.cluster.txnOffsets == map[]
    ensures var (t, committed) := CommitTransaction(s, o);
            && (committed <==> CommitAnswer(s, o) == GoesThrough)
            && (if CommitAnswer(s, o).ProcessEnds? then Ended(s, t, TakesEffect(s, o))
                else t == s.(cluster := Renewed(s, TakesEffect(s, o)).(txn := Ready)))
  {
    CommitOutcome(s, o);
    CommitAnswers(s, o);
  }

  /** Calls in the wrong transaction state are what ends a process with misuse. */
  lemma MisuseIsSeen(s: State, o: Oracle)
    requires Running(s)
    ensures Begin(s, o).phase == Exited(true) <==> s.cluster.txn != Ready
    ensures Abort(s, o).phase == Exited(true) <==> s.cluster.txn == Ready
    ensures CommitTransaction(s, o).0.phase == Exited(true) <==>
            s.cluster.txn == Ready && (!o.assignment || s.consumer.cursor == map[] || o.position)
  {
  }

  /** Abort, rewind and begin all work, as far as there is something to rewind. */
  predicate RollbackSurvives(s: State, o: Oracle) {
    && o.abort == Succeeds && o.begin == Succeeds
    && (o.rewindAssignment && s.consumer.cursor != map[] ==> o.rewindCommitted && o.rewindSeek)
  }

  /** Where the consumer is after a roll-back. */
  ghost predicate RolledBackTo(s: State, o: Oracle, k: Consumer) {
    if o.rewindAssignment && s.consumer.cursor != map[] then AtCommitted(s.cluster.committed, s.consumer.cursor.Keys, k)
    else k == s.consumer
  }

  lemma AbortStep(s: State, o: Oracle)
    requires Running(s) && s.cluster.txn != Ready
    ensures var t := Abort(s, o);
            if o.abort == Succeeds then t == s.(cluster := Renewed(s, false).(txn := Ready)) else Ended(s, t, false)
  {
  }

  lemma BeginStep(s: State, o: Oracle)
    requires Running(s) && Between(s)
    ensures var t := Begin(s, o);
            if o.begin == Succeeds then t == s.(cluster := s.cluster.(txn := InTxn), covered := 0) else Ended(s, t, false)
  {
  }

  lemma RewindAndBeginStep(s: State, o: Oracle)
    requires Running(s) && Between(s)
    ensures var s1 := RewindConsumer(s, o);
            var t := if Running(s1) then Begin(s1, o) else s1;
            if RollbackSurvives(s, o.(abort := Succeeds))
            then t == s.(cluster := s.cluster.(txn := InTxn), consumer := t.consumer, covered := 0) && RolledBackTo(s, o, t.consumer)
            else Ended(s, t, false)
  {
    hide Begin;
    var s1 := RewindConsumer(s, o);
    if Running(s1) {
      BeginStep(s1, o);
    }
  }

  lemma RollbackStep(s: State, o: Oracle)
    requires Running(s) && s.cluster.txn != Ready
    ensures var t := AbortAndRewind(s, o);
            if RollbackSurvives(s, o)
            then t == s.(cluster := Renewed(s, false), consumer := t.consumer, covered := 0) && RolledBackTo(s, o, t.consumer)
            else Ended(s, t, false)
  {
    hide Abort, RewindConsumer, Begin, AtCommitted;
    var s1 := Abort(s, o);
    AbortStep(s, o);
    if o.abort == Succeeds {
      var s2 := RewindConsumer(s1, o);
      assert AbortAndRewind(s, o) == if Running(s2) then Begin(s2, o) else s2;
      assert Renewed(s, false) == s1.cluster.(txn := InTxn);
      hide AbortAndRewind, Renewed;
      RewindAndBeginStep(s1, o);
    }
  }

  lemma CommitAndStartStep(s: State, o: Oracle)
    requires Running(s) && s.cluster.txn != Ready && s.cluster.txnOffsets == map[]
    ensures var t := CommitAndStartNew(s, o);
            if TurnSurvives(s, o)
            then && t == s.(cluster := Renewed(s, TakesEffect(s, o)), consumer := t.consumer, covered := 0)
                 && (if CommitAnswer(s, o) == GoesThrough then t.consumer == s.consumer else RolledBackTo(s, o, t.consumer))
            else Ended(s, t, TakesEffect(s, o))
  {
    hide CommitTransaction, CommitAnswer, RewindConsumer, Begin, AtCommitted;
    CommitStep(s, o);
    var (s1, committed) := CommitTransaction(s, o);
    if Running(s1) {
      if committed {
        BeginStep(s1, o);
      } else {
        RewindAndBeginStep(s1, o);
      }
    }
  }

  /** What a revoke lives through. */
  predicate RevokeSurvives(s: State, lost: bool, ok: bool, o: Oracle) {
    (if lost then o.abort == Succeeds else !CommitAnswer(s, o).ProcessEnds?) && o.begin == Succeeds && ok
  }

  /** Ending the transaction from the rebalance callback leaves the consumer where it is. */
  lemma EndStep(s: State, lost: bool, o: Oracle)
    requires Running(s) && s.cluster.txn != Ready && s.cluster.txnOffsets == map[]
    ensures var t := EndTransaction(s, lost, o);
            if RevokeSurvives(s, lost, true, o) then t == s.(cluster := Renewed(s, RevokeTakesEffect(s, lost, o)), covered := 0)
            else Ended(s, t, RevokeTakesEffect(s, lost, o))
  {
    hide CommitTransaction, CommitAnswer, Abort, Begin;
    AbortStep(s, o);
    var s1 := if lost then Abort(s, o) else CommitTransaction(s, o).0;
    CommitStep(s, o);
    if Running(s1) {
      BeginStep(s1, o);
    }
  }

  // ----- the program's steps -----

  /** The loop top commits exactly if messages were counted and there are more than 100 or
      the last commit is five seconds old, and then counts anew; otherwise it only polls. */
  lemma TurnStep(s: State, now: int, later: int, o: Oracle)
    requires Shape(s) && s.phase.AtTop?
    ensures var t := LoopTop(s, now, later, o);
            if !(s.msgcnt > 100 || (s.msgcnt > 0 && s.lastCommit + 5 <= now)) then t == s.(phase := InPoll)
            else if TurnSurvives(s, o)
            then && t == State(s.process, Renewed(s, TakesEffect(s, o)), t.consumer, 0, later, 0, InPoll)
                 && (if CommitAnswer(s, o) == GoesThrough then t.consumer == s.consumer else RolledBackTo(s, o, t.consumer))
            else Ended(s, t, TakesEffect(s, o))
  {
    hide CommitAndStartNew, CommitAnswer, WithinLog, PositionsValid, AtCommitted;
    CommitAndStartStep(s, o);
  }

  /** A revoke ends the transaction, begins the next one and takes the partitions given,
      and no others, out of the assignment, whatever became of the transaction. */
  lemma RevokeStep(s: State, ps: set<Partition>, lost: bool, ok: bool, o: Oracle)
    requires Running(s) && s.cluster.txn != Ready && s.cluster.txnOffsets == map[]
    ensures var t := RevokeCallback(s, ps, lost, ok, o);
            if RevokeSurvives(s, lost, ok, o)
            then t == s.(cluster := Renewed(s, RevokeTakesEffect(s, lost, o)).(owned := s.cluster.owned - ps),
                         consumer := Consumer(s.consumer.cursor - ps, s.consumer.position - ps), covered := 0)
            else Ended(s, t, RevokeTakesEffect(s, lost, o))
  {
    hide EndTransaction, CommitAnswer;
    EndStep(s, lost, o);
  }

  /** The partitions given join the assignment at their committed offset or the beginning;
      those the member already has stay where they are. */
  lemma AssignStep(s: State, ps: set<Partition>, ok: bool)
    requires Running(s)
    ensures var t := AssignCallback(s, ps, ok);
            if !ok then Ended(s, t, false)
            else && t == s.(cluster := s.cluster.(owned := s.cluster.owned + ps), consumer := Consumer(t.consumer.cursor, s.consumer.position))
                 && t.consumer.cursor.Keys == s.consumer.cursor.Keys + ps
                 && (forall p :: p in ps ==> t.consumer.cursor[p] == if p in s.cluster.committed then s.cluster.committed[p] else 0)
                 && (forall p :: p in s.consumer.cursor && p !in ps ==> t.consumer.cursor[p] == s.consumer.cursor[p])
  {
  }

  /** The consumer after it has handed out the next message of p. */
  function PastMessage(s: State, p: Partition): Consumer
    requires p in s.consumer.cursor
  {
    var n := s.consumer.cursor[p] + 1;
    Consumer(s.consumer.cursor[p := n], s.consumer.position[p := n])
  }

  /** A message whose output is taken, or that has none: it is counted once, and its output
      is the last of the transaction. */
  lemma AcceptedStep(s: State, p: Partition, reports: seq<bool>, accepted: bool, o: Oracle)
    requires Shape(s) && s.phase.InPoll? && p in s.consumer.cursor && s.consumer.cursor[p] < |Log(s.cluster, p)|
    requires !Rejected(s, p, reports, accepted)
    ensures var n := s.consumer.cursor[p];
            var more := match s.process(Log(s.cluster, p)[n]) case None => [] case Some(out) => [Entry(p, n, out)];
            HandleMessage(s, p, reports, accepted, o) ==
            s.(cluster := s.cluster.(pending := s.cluster.pending + more), consumer := PastMessage(s, p),
               msgcnt := s.msgcnt + 1, covered := s.covered + 1, phase := AtTop)
  {
  }

  /** A message whose output is refused: the transaction is rolled back, all partitions, its
      own included, are rewound, and the message is counted all the same. */
  lemma RejectedStep(s: State, p: Partition, reports: seq<bool>, accepted: bool, o: Oracle)
    requires Shape(s) && s.phase.InPoll? && p in s.consumer.cursor && s.consumer.cursor[p] < |Log(s.cluster, p)|
    requires Rejected(s, p, reports, accepted)
    ensures var t := HandleMessage(s, p, reports, accepted, o);
            if RewindWorks(o)
            then && t == State(s.process, Renewed(s, false), t.consumer, s.msgcnt + 1, s.lastCommit, 0, AtTop)
                 && (if o.rewindAssignment then AtCommitted(s.cluster.committed, s.consumer.cursor.Keys, t.consumer) else t.consumer == PastMessage(s, p))
            else Ended(s, t, false)
  {
    hide AbortAndRewind, WithinLog, PositionsValid, Share, AtCommitted;
    var u := WaitForQueue(Take(s, p), reports);
    assert u.consumer == PastMessage(s, p) && p in u.consumer.cursor;
    assert u.consumer.cursor.Keys == s.consumer.cursor.Keys;
    RollbackStep(u, o);
  }

  /** Closing revokes the whole assignment, if there is one, and always ends the process. */
  lemma StopStep(s: State, lost: bool, ok: bool, o: Oracle)
    requires Shape(s) && s.phase.AtTop?
    ensures Ended(s, CloseConsumer(s, lost, ok, o), s.consumer.cursor != map[] && RevokeTakesEffect(s, lost, o))
  {
    hide CommitAnswer, RevokeCallback, WithinLog, PositionsValid;
    RevokeStep(s, s.consumer.cursor.Keys, lost, ok, o);
  }

  /** A new process drops what its predecessor left open and starts from nothing, inside a
      transaction. */
  lemma StartStep(s: State, ready: bool, o: Oracle)
    requires Shape(s) && !Running(s)
    ensures var t := Restart(s, ready, o);
            var c := s.cluster.(pending := [], txnOffsets := map[]);
            if ready && o.begin == Succeeds
            then t == State(s.process, c.(txn := InTxn), Consumer(map[], map[]), 0, 0, 0, AtTop)
            else Ended(s, t, false) && t.cluster == c.(txn := Ready, owned := {})
  {
  }

  /** What happens around the program: a crash ends it at any point without effect on what
      is committed, a poll without a message changes nothing, a delivery failure only marks
      the transaction, and an eviction only takes the partitions away. */
  lemma OtherStep(s: State, e: Event)
    requires Enabled(s, e) && Running(s)
    ensures e.Crash? ==> Ended(s, Step(s, e), false)
    ensures e.Nothing? ==> Step(s, e) == s.(phase := AtTop)
    ensures e.DeliveryFailure? ==> Step(s, e) == s.(cluster := s.cluster.(txn := MustAbort))
    ensures e.Evict? ==> Step(s, e) == s.(cluster := s.cluster.(owned := {}))
  {
  }
}
