/** What every reachable state of the exactly-once step system satisfies, whatever
    fails: valid positions, transaction typestate and the bounds on an open
    transaction. */
module ExactlyOnceShape {
  import opened MessageFunction
  import opened OutputStream
  import opened ExactlyOnce

  // ----- vocabulary -----

  ghost predicate Running(s: State) {
    !s.phase.Exited?
  }

  ghost function Assignment(s: State): set<Partition> {
    s.consumer.cursor.Keys
  }

  /** Partitions this member has assigned and the coordinator agrees about. */
  ghost function Held(s: State): set<Partition> {
    Assignment(s) * s.cluster.owned
  }

  // ----- what every reachable state satisfies, whatever happens -----

  ghost predicate WithinLog(s: State) {
    && (forall p :: Start(s.cluster, p) <= |Log(s.cluster, p)|)
    && (forall p :: p in s.consumer.cursor ==> s.consumer.cursor[p] <= |Log(s.cluster, p)|)
    && (forall p :: p in Held(s) ==> Start(s.cluster, p) <= s.consumer.cursor[p])
  }

  ghost predicate PositionsValid(s: State) {
    && s.consumer.position.Keys <= s.consumer.cursor.Keys
    && (forall p :: p in s.consumer.position ==> s.consumer.position[p] == s.consumer.cursor[p])
    && (forall p :: p in s.consumer.cursor && p !in s.consumer.position ==>
          && Share(s.cluster.pending, p) == []
          && (p in s.cluster.owned ==> s.consumer.cursor[p] == Start(s.cluster, p)))
  }

  /** Transaction typestate: a running process is inside a transaction whose
      offsets have not been sent yet, and everything in it comes from an
      assigned partition. */
  ghost predicate InTransaction(s: State) {
    && s.cluster.txn != Ready
    && s.cluster.txnOffsets == map[]
    && (forall e :: e in s.cluster.pending ==> e.part in s.consumer.cursor)
  }

  ghost predicate Bounded(s: State) {
    && |s.cluster.pending| <= s.covered <= s.msgcnt
    && s.msgcnt <= (if s.phase.AtTop? then 101 else 100)
  }

  ghost predicate Bookkeeping(s: State) {
    WithinLog(s) && PositionsValid(s) && (Running(s) ==> InTransaction(s))
  }

  ghost predicate Shape(s: State) {
    && s.phase != Exited(true)
    && Bookkeeping(s)
    && (Running(s) ==> Bounded(s))
    && (!Running(s) ==> s.consumer == NO_CONSUMER)
  }

  // ----- the building blocks -----

  /** Committed offsets and committed output move together: neither changes, or the
      whole open transaction and the consumer's positions are published at once. */
  ghost predicate Unpublished(s: State, t: State) {
    && t.cluster.output == s.cluster.output
    && t.cluster.committed == s.cluster.committed
  }

  ghost predicate Published(s: State, t: State) {
    && t.cluster.output == s.cluster.output + s.cluster.pending
    && t.cluster.committed == s.cluster.committed + s.consumer.position
    && (s.consumer.position != map[] ==> Assignment(s) <= s.cluster.owned)
  }

  /** What no call on the producer touches. */
  ghost predicate SameApplication(s: State, t: State) {
    && t.process == s.process
    && t.cluster.log == s.cluster.log
    && t.msgcnt == s.msgcnt
    && t.lastCommit == s.lastCommit
    && (Running(t) ==> t.phase == s.phase && t.cluster.owned == s.cluster.owned)
    && (!Running(t) ==> t.consumer == NO_CONSUMER && t.phase == Exited(false))
  }

  /** No transaction is open and the last one left nothing behind. */
  ghost predicate Between(s: State) {
    s.cluster.txn == Ready && s.cluster.pending == [] && s.cluster.txnOffsets == map[]
  }

  lemma AbortOutcome(s: State, o: Oracle)
    requires Running(s) && s.cluster.txn != Ready
    ensures var t := Abort(s, o);
            && SameApplication(s, t)
            && Unpublished(s, t)
            && t.covered == s.covered
            && (Running(t) ==> Between(t) && t.consumer == s.consumer)
  {
  }

  lemma SendOutcome(c: Cluster, offsets: map<Partition, nat>, parts: set<Partition>, ask: Ask)
    requires c.txn != Ready && c.txnOffsets == map[]
    ensures var (c1, err) := SendOffsets(c, offsets, parts, ask);
            && err != BadState
            && (err == NoError ==> c1 == c.(txnOffsets := offsets) && (offsets != map[] ==> parts <= c.owned))
            && (err == RequiresAbort ==> c1 == c.(txn := MustAbort))
            && (err == Fatal ==> c1 == c)
  {
    assert map[] + offsets == offsets;
  }

  /** What `commit_transaction` leaves: everything is published and it returns true,
      or all is rolled back and it returns false, or the process ends with one or
      the other done. */
  ghost predicate CommitEffect(s: State, t: State, committed: bool) {
    && SameApplication(s, t)
    && (Unpublished(s, t) || Published(s, t))
    && t.covered == s.covered
    && (Running(t) ==>
          && Between(t)
          && t.consumer == s.consumer
          && (if committed then Published(s, t) else Unpublished(s, t)))
    && (committed ==> Running(t) && s.consumer.cursor != map[])
  }

  lemma AfterSendEffect(s: State, o: Oracle)
    requires Running(s) && s.cluster.txn != Ready && s.cluster.txnOffsets == s.consumer.position
    requires s.consumer.position != map[] ==> Assignment(s) <= s.cluster.owned
    requires s.consumer.cursor != map[]
    ensures var (t, committed) := AfterSend(s, NoError, o); CommitEffect(s, t, committed)
  {
    var (c, err) := CommitTransactionCall(s.cluster, o.commit, o.applied);
    if err == RequiresAbort {
      AbortOutcome(s.(cluster := c), o);
    }
  }

  lemma CommitOutcome(s: State, o: Oracle)
    requires Running(s) && s.cluster.txn != Ready && s.cluster.txnOffsets == map[]
    ensures var (t, committed) := CommitTransaction(s, o); CommitEffect(s, t, committed)
  {
    if !o.assignment || s.consumer.cursor == map[] {
      AbortOutcome(s, o);
    } else if o.position {
      SendOutcome(s.cluster, s.consumer.position, s.consumer.cursor.Keys, o.send);
      var (c, err) := SendOffsets(s.cluster, s.consumer.position, s.consumer.cursor.Keys, o.send);
      if err == RequiresAbort {
        AbortOutcome(s.(cluster := c), o);
      } else if err == NoError {
        AfterSendEffect(s.(cluster := c), o);
      }
    }
  }

  /** `rewind_consumer`: every assigned partition is back at its committed offset
      and without a position, unless the assignment could not be queried. */
  lemma RewindOutcome(s: State, o: Oracle)
    requires Running(s)
    ensures var t := RewindConsumer(s, o);
            && SameApplication(s, t)
            && t.covered == s.covered
            && t.cluster == s.cluster.(owned := t.cluster.owned)
            && (Running(t) && !o.rewindAssignment ==> t.consumer == s.consumer)
            && (Running(t) && o.rewindAssignment ==>
                  && Assignment(t) == Assignment(s)
                  && (if Assignment(s) == {} then t.consumer == s.consumer else t.consumer.position == map[])
                  && forall p :: p in Assignment(t) ==> t.consumer.cursor[p] == Start(t.cluster, p))
  {
    assert s.consumer.cursor == map[] <==> Assignment(s) == {};
  }

  lemma BeginOutcome(s: State, o: Oracle)
    requires Running(s) && Between(s)
    ensures var t := Begin(s, o);
            && SameApplication(s, t)
            && Unpublished(s, t)
            && t.cluster.pending == [] && t.cluster.txnOffsets == map[]
            && (Running(t) ==> t.cluster.txn == InTxn && t.covered == 0 && t.consumer == s.consumer)
  {
  }

  // ----- the shape invariant -----

  /** A new transaction is open with nothing in it. */
  ghost predicate FreshTransaction(t: State) {
    && t.cluster.txn == InTxn && t.cluster.pending == [] && t.cluster.txnOffsets == map[]
    && t.covered == 0
  }

  /** Where a transaction that was rolled back leaves the consumer. */
  ghost predicate Rewound(s: State, t: State, rewound: bool) {
    if rewound then
      && Assignment(t) == Assignment(s)
      && (if Assignment(s) == {} then t.consumer == s.consumer else t.consumer.position == map[])
      && (forall p :: p in Assignment(t) ==> t.consumer.cursor[p] == Start(t.cluster, p))
    else t.consumer == s.consumer
  }

  /** The effect of aborting, rewinding and beginning again. */
  ghost predicate RollbackEffect(s: State, t: State, rewound: bool) {
    && SameApplication(s, t)
    && Unpublished(s, t)
    && (Running(t) ==> FreshTransaction(t) && Rewound(s, t, rewound))
  }

  lemma RewindAndBegin(s: State, o: Oracle)
    requires Running(s) && Between(s)
    ensures var s1 := RewindConsumer(s, o);
            RollbackEffect(s, if Running(s1) then Begin(s1, o) else s1, o.rewindAssignment)
  {
    RewindOutcome(s, o);
    var s1 := RewindConsumer(s, o);
    if Running(s1) {
      BeginOutcome(s1, o);
    }
  }

  lemma AbortAndRewindEffect(s: State, o: Oracle)
    requires Running(s) && s.cluster.txn != Ready
    ensures RollbackEffect(s, AbortAndRewind(s, o), o.rewindAssignment)
  {
    AbortOutcome(s, o);
    var s1 := Abort(s, o);
    if Running(s1) {
      RewindAndBegin(s1, o);
    }
  }

  /** The effect of committing and beginning again. */
  ghost predicate CommitAndStartEffect(s: State, t: State, o: Oracle) {
    && SameApplication(s, t)
    && (Unpublished(s, t) || Published(s, t))
    && (Running(t) ==>
          && FreshTransaction(t)
          && (if CommitTransaction(s, o).1 then Published(s, t) && t.consumer == s.consumer && s.consumer.cursor != map[]
              else Unpublished(s, t) && Rewound(s, t, o.rewindAssignment)))
  }

  lemma CommitAndStartNewEffect(s: State, o: Oracle)
    requires Running(s) && s.cluster.txn != Ready && s.cluster.txnOffsets == map[]
    ensures CommitAndStartEffect(s, CommitAndStartNew(s, o), o)
  {
    CommitOutcome(s, o);
    var (s1, committed) := CommitTransaction(s, o);
    if Running(s1) {
      if committed {
        BeginOutcome(s1, o);
      } else {
        RewindAndBegin(s1, o);
      }
    }
  }

  /** Committed offsets after a publication are where the consumer reads next. */
  lemma PublishedOffsets(s: State, t: State)
    requires WithinLog(s) && PositionsValid(s) && Published(s, t)
    ensures forall p :: p in s.consumer.position ==> Start(t.cluster, p) == s.consumer.cursor[p]
    ensures forall p :: p !in s.consumer.position ==> Start(t.cluster, p) == Start(s.cluster, p)
    ensures forall p :: p in Held(s) ==> Start(t.cluster, p) == s.consumer.cursor[p]
    ensures forall p :: Start(s.cluster, p) <= Start(t.cluster, p) <= |Log(s.cluster, p)|
  {
  }

  lemma SameLogs(s: State, t: State)
    requires t.cluster.log == s.cluster.log
    ensures forall p {:trigger Log(t.cluster, p)} :: Log(t.cluster, p) == Log(s.cluster, p)
    ensures Unpublished(s, t) ==> forall p {:trigger Start(t.cluster, p)} :: Start(t.cluster, p) == Start(s.cluster, p)
  {
  }

  /** What is left of the bookkeeping when the process has ended. */
  lemma ShapeOfExited(s: State, t: State)
    requires WithinLog(s) && PositionsValid(s) && Running(s) && SameApplication(s, t) && !Running(t)
    requires Unpublished(s, t) || Published(s, t)
    ensures Shape(t)
  {
    SameLogs(s, t);
    if Published(s, t) {
      PublishedOffsets(s, t);
    }
  }

  /** The bookkeeping in a transaction that has just begun. */
  lemma ShapeOfFresh(s: State, t: State, rewound: bool)
    requires WithinLog(s) && PositionsValid(s) && Running(s) && SameApplication(s, t) && Running(t) && FreshTransaction(t)
    requires (Published(s, t) && t.consumer == s.consumer) || (Unpublished(s, t) && Rewound(s, t, rewound))
    ensures WithinLog(t) && PositionsValid(t) && InTransaction(t)
  {
    SameLogs(s, t);
    if Published(s, t) && t.consumer == s.consumer {
      PublishedOffsets(s, t);
    }
  }

  // ----- the shape invariant, event by event -----

  lemma CommitKeepsBookkeeping(s: State, o: Oracle)
    requires Running(s) && Bookkeeping(s)
    ensures var t := CommitAndStartNew(s, o);
            Bookkeeping(t) && SameApplication(s, t) && (Running(t) ==> FreshTransaction(t))
  {
    hide CommitAndStartNew, Share;
    CommitAndStartNewEffect(s, o);
    var t := CommitAndStartNew(s, o);
    if Running(t) {
      ShapeOfFresh(s, t, o.rewindAssignment);
    } else {
      ShapeOfExited(s, t);
    }
  }

  /** The bookkeeping is about the brokers and the consumer. */
  lemma SameBookkeeping(s: State, t: State)
    requires t.cluster == s.cluster && t.consumer == s.consumer
    ensures WithinLog(t) <==> WithinLog(s)
    ensures PositionsValid(t) <==> PositionsValid(s)
  {
    hide Share;
    SameLogs(s, t);
    assert Held(t) == Held(s);
  }

  /** The loop top, up to the poll. After it the open transaction is neither too old
      nor too large: nothing was counted, or at most 100 messages were and the last
      commit is less than five seconds ago. */
  lemma TurnKeepsShape(s: State, now: int, later: int, o: Oracle)
    requires Shape(s) && s.phase.AtTop?
    ensures var t := LoopTop(s, now, later, o);
            && Shape(t)
            && (Running(t) ==> t.phase.InPoll? && (t.msgcnt == 0 || (t.msgcnt <= 100 && now < t.lastCommit + 5)))
  {
    hide CommitAndStartNew, WithinLog, PositionsValid;
    CommitKeepsBookkeeping(s, o);
    var s1 := CommitAndStartNew(s, o);
    SameBookkeeping(s1, s1.(msgcnt := 0, lastCommit := later, phase := InPoll));
    SameBookkeeping(s, s.(phase := InPoll));
  }

  /** The callback of a revoke before the partitions are given back. */
  ghost predicate RevokeEffect(s: State, t: State, lost: bool, o: Oracle) {
    && SameApplication(s, t)
    && (Unpublished(s, t) || Published(s, t))
    && (Running(t) ==>
          && FreshTransaction(t)
          && t.consumer == s.consumer
          && (if !lost && CommitTransaction(s, o).1 then Published(s, t) else Unpublished(s, t)))
  }

  lemma EndTransactionEffect(s: State, lost: bool, o: Oracle)
    requires Running(s) && s.cluster.txn != Ready && s.cluster.txnOffsets == map[]
    ensures RevokeEffect(s, EndTransaction(s, lost, o), lost, o)
  {
    AbortOutcome(s, o);
    CommitOutcome(s, o);
    var s1 := if lost then Abort(s, o) else CommitTransaction(s, o).0;
    if Running(s1) {
      BeginOutcome(s1, o);
    }
  }

  lemma ExitKeepsShape(s: State)
    requires Bookkeeping(s)
    ensures Shape(Exit(s, false))
  {
    SameLogs(s, Exit(s, false));
  }

  lemma UnassignKeepsBookkeeping(s: State, ps: set<Partition>)
    requires Running(s) && Bookkeeping(s) && s.cluster.pending == []
    ensures Bookkeeping(Unassign(s, ps))
  {
    SameLogs(s, Unassign(s, ps));
  }

  lemma RevokeKeepsShape(s: State, ps: set<Partition>, lost: bool, ok: bool, o: Oracle)
    requires Shape(s) && Running(s)
    ensures var t := RevokeCallback(s, ps, lost, ok, o);
            && Shape(t)
            && (Running(t) ==> t.phase == s.phase)
  {
    EndTransactionEffect(s, lost, o);
    var s1 := EndTransaction(s, lost, o);
    if Running(s1) {
      ShapeOfFresh(s, s1, false);
      if ok {
        UnassignKeepsBookkeeping(s1, ps);
      } else {
        ExitKeepsShape(s1);
      }
    } else {
      ShapeOfExited(s, s1);
    }
  }

  lemma AssignKeepsShape(s: State, ps: set<Partition>, ok: bool)
    requires Shape(s) && s.phase.InPoll? && ps !! Assignment(s)
    ensures Shape(AssignCallback(s, ps, ok))
  {
    var t := AssignCallback(s, ps, ok);
    SameLogs(s, t);
    if ok {
      forall p | p in ps
        ensures Share(s.cluster.pending, p) == []
      {
        ShareOfAbsent(s.cluster.pending, p);
      }
    }
  }

  /** Between taking a message and processing it. */
  lemma TakeKeepsBookkeeping(s: State, p: Partition)
    requires Shape(s) && Running(s) && p in Assignment(s) && s.consumer.cursor[p] < |Log(s.cluster, p)|
    ensures Bookkeeping(Take(s, p))
  {
  }

  lemma ProduceKeepsBookkeeping(s: State, p: Partition, es: seq<Entry>)
    requires Running(s) && Bookkeeping(s) && p in s.consumer.position
    requires forall e :: e in es ==> e.part == p
    ensures Bookkeeping(Produce(s, es))
  {
    var t := Produce(s, es);
    SameLogs(s, t);
    forall q | q in s.consumer.cursor && q !in s.consumer.position
      ensures Share(t.cluster.pending, q) == []
    {
      ShareConcat(s.cluster.pending, es, q);
      ShareOfAbsent(es, q);
    }
  }

  lemma RollbackKeepsBookkeeping(s: State, o: Oracle)
    requires Running(s) && Bookkeeping(s)
    ensures Bookkeeping(AbortAndRewind(s, o))
  {
    hide AbortAndRewind, Share;
    var t := AbortAndRewind(s, o);
    AbortAndRewindEffect(s, o);
    if Running(t) {
      ShapeOfFresh(s, t, o.rewindAssignment);
    } else {
      ShapeOfExited(s, t);
    }
  }

  lemma WaitKeepsBookkeeping(s: State, reports: seq<bool>)
    requires Running(s) && Bookkeeping(s)
    ensures Bookkeeping(WaitForQueue(s, reports))
  {
    SameLogs(s, WaitForQueue(s, reports));
  }

  lemma ProcessKeepsBookkeeping(s: State, p: Partition, offset: nat, r: Record, reports: seq<bool>, accepted: bool, o: Oracle)
    requires Running(s) && Bookkeeping(s) && p in s.consumer.position
    requires |s.cluster.pending| < s.covered
    ensures var t := ProcessMessage(s, p, offset, r, reports, accepted, o);
            && SameApplication(s, t)
            && Unpublished(s, t)
            && Bookkeeping(t)
            && (Running(t) ==> |t.cluster.pending| <= t.covered <= s.covered)
  {
    hide AbortAndRewind, Share, WithinLog, PositionsValid;
    var es := Tagged(s.process, p, offset, r);
    var s1 := WaitForQueue(s, reports);
    if es != [] {
      WaitKeepsBookkeeping(s, reports);
      if accepted && s1.cluster.txn == InTxn {
        ProduceKeepsBookkeeping(s1, p, es);
      } else {
        RollbackKeepsBookkeeping(s1, o);
        AbortAndRewindEffect(s1, o);
      }
    }
  }

  lemma MessageKeepsShape(s: State, p: Partition, reports: seq<bool>, accepted: bool, o: Oracle)
    requires Shape(s) && s.phase.InPoll? && p in Assignment(s) && s.consumer.cursor[p] < |Log(s.cluster, p)|
    ensures Shape(HandleMessage(s, p, reports, accepted, o))
  {
    hide ProcessMessage, WithinLog, PositionsValid;
    var offset := s.consumer.cursor[p];
    TakeKeepsBookkeeping(s, p);
    ProcessKeepsBookkeeping(Take(s, p), p, offset, Log(s.cluster, p)[offset], reports, accepted, o);
    var s1 := ProcessMessage(Take(s, p), p, offset, Log(s.cluster, p)[offset], reports, accepted, o);
    SameBookkeeping(s1, s1.(msgcnt := s1.msgcnt + 1, phase := AtTop));
  }

  lemma AppendKeepsShape(s: State, p: Partition, r: Record)
    requires Shape(s)
    ensures Shape(Step(s, Append(p, r)))
  {
    var t := Step(s, Append(p, r));
    assert forall q {:trigger Log(t.cluster, q)} :: |Log(s.cluster, q)| <= |Log(t.cluster, q)|;
    assert forall q {:trigger Start(t.cluster, q)} :: Start(t.cluster, q) == Start(s.cluster, q);
  }

  lemma OthersKeepShape(s: State, p: Partition, n: nat)
    requires Shape(s) && Enabled(s, OthersCommit(p, n))
    ensures Shape(CommitByOthers(s, p, n))
  {
    hide Expected, Share;
    var t := CommitByOthers(s, p, n);
    SameLogs(s, t);
    assert forall q {:trigger Start(t.cluster, q)} :: q != p ==> Start(t.cluster, q) == Start(s.cluster, q);
  }

  /** Events that leave the logs and what is committed alone. */
  lemma QuietKeepsShape(s: State, e: Event)
    requires Shape(s) && Enabled(s, e)
    requires e.Evict? || e.DeliveryFailure? || e.Nothing?
    ensures Shape(Step(s, e))
  {
    hide LoopTop, HandleMessage, RevokeCallback, CloseConsumer, Restart, CommitByOthers, AssignCallback, Share;
    SameLogs(s, Step(s, e));
  }

  lemma RestartKeepsShape(s: State, ready: bool, o: Oracle)
    requires Shape(s) && !Running(s)
    ensures Shape(Restart(s, ready, o))
  {
    SameLogs(s, Restart(s, ready, o));
  }

  lemma CloseKeepsShape(s: State, lost: bool, ok: bool, o: Oracle)
    requires Shape(s) && s.phase.AtTop?
    ensures Shape(CloseConsumer(s, lost, ok, o))
  {
    RevokeKeepsShape(s, s.consumer.cursor.Keys, lost, ok, o);
    var s1 := if s.consumer.cursor == map[] then s else RevokeCallback(s, s.consumer.cursor.Keys, lost, ok, o);
    if Running(s1) {
      ExitKeepsShape(s1);
    }
  }

  /** Every step keeps the bookkeeping: positions, typestate, bounds. */
  lemma StepKeepsShape(s: State, e: Event)
    requires Shape(s)
    ensures Shape(Step(s, e))
  {
    if Enabled(s, e) {
      match e
      case Append(p, r) => AppendKeepsShape(s, p, r);
      case OthersCommit(p, n) => OthersKeepShape(s, p, n);
      case Turn(now, later, o) => TurnKeepsShape(s, now, later, o);
      case Assigned(ps, ok) => AssignKeepsShape(s, ps, ok);
      case Revoked(ps, lost, ok, o) => RevokeKeepsShape(s, ps, lost, ok, o);
      case Message(p, reports, accepted, o) => MessageKeepsShape(s, p, reports, accepted, o);
      case Stop(lost, ok, o) => CloseKeepsShape(s, lost, ok, o);
      case Evict => QuietKeepsShape(s, e);
      case DeliveryFailure => QuietKeepsShape(s, e);
      case Nothing => QuietKeepsShape(s, e);
      case Crash => ExitKeepsShape(s);
      case Started(ready, o) => RestartKeepsShape(s, ready, o);
    }
  }
}
