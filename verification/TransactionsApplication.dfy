/** The program of examples/transactions.c, function by function, over the cluster
    model. Each method is proved to do what the step function of the same name says,
    and a whole run of the program what the run of the step system says. */
module TransactionsApplication {
  import opened Decimal
  import opened MessageFunction
  import opened OutputStream
  import opened ExactlyOnce
  import Shape = ExactlyOnceShape
  import Refinement = ExactlyOnceRefinement
  import Safety = ExactlyOnceSafety
  import Effects = ExactlyOnceEffects

  class Application {
    var cluster: Cluster        // the brokers, as reached through the two handles
    var consumer: Consumer
    var msgcnt: nat
    var lastCommit: int
    var phase: Phase
    ghost var covered: nat

    ghost function View(): State
      reads this
    {
      State(Emit, cluster, consumer, msgcnt, lastCommit, covered, phase)
    }

    constructor (log: map<Partition, seq<Record>>)
      ensures View() == Initial(Emit, log)
    {
      cluster := Cluster(log, map[], [], [], map[], Ready, {});
      consumer := NO_CONSUMER;
      msgcnt, lastCommit, covered, phase := 0, 0, 0, Exited(false);
    }

    /** `fatal()` and `exit()`. */
    method ExitProcess(misuse: bool)
      modifies this
      ensures View() == Exit(old(View()), misuse)
    {
      consumer := NO_CONSUMER;
      cluster := cluster.(owned := {});
      phase := Exited(misuse);
    }

    method BeginOrExit(o: Oracle)
      modifies this
      ensures View() == Begin(old(View()), o)
    {
      var (c, err) := BeginTransaction(cluster, o.begin);
      if err != NoError {
        ExitProcess(err == BadState);
        return;
      }
      cluster, covered := c, 0;
    }

    method AbortOrExit(o: Oracle)
      modifies this
      ensures View() == Abort(old(View()), o)
    {
      var (c, err) := AbortTransaction(cluster, o.abort);
      if err != NoError {
        ExitProcess(err == BadState);
        return;
      }
      cluster := c;
    }

    /** Committed offsets of the assignment, the beginning where there is none. */
    method FetchCommitted(ps: set<Partition>) returns (offsets: map<Partition, nat>)
      ensures offsets == Committed(cluster, ps)
    {
      offsets := map[];
      var todo := ps;
      while todo != {}
        invariant todo <= ps
        invariant offsets == Committed(cluster, ps - todo)
        decreases todo
      {
        var p :| p in todo;
        offsets := offsets[p := if p in cluster.committed then cluster.committed[p] else 0];
        todo := todo - {p};
      }
      assert ps - todo == ps;
    }

    method RewindConsumer(o: Oracle)
      modifies this
      ensures View() == ExactlyOnce.RewindConsumer(old(View()), o)
    {
      if !o.rewindAssignment || consumer.cursor == map[] {
        return;
      }
      if !o.rewindCommitted {
        ExitProcess(false);
        return;
      }
      var offsets := FetchCommitted(consumer.cursor.Keys);
      if !o.rewindSeek {
        ExitProcess(false);
        return;
      }
      consumer := Consumer(offsets, map[]);
    }

    method AbortTransactionAndRewind(o: Oracle)
      modifies this
      ensures View() == AbortAndRewind(old(View()), o)
    {
      AbortOrExit(o);
      if phase.Exited? { return; }
      RewindConsumer(o);
      if phase.Exited? { return; }
      BeginOrExit(o);
    }

    method CommitTransaction(o: Oracle) returns (committed: bool)
      modifies this
      ensures (View(), committed) == ExactlyOnce.CommitTransaction(old(View()), o)
    {
      if !o.assignment || consumer.cursor == map[] {
        AbortOrExit(o);
        return false;
      }
      if !o.position {
        ExitProcess(false);
        return false;
      }
      var (c, err) := SendOffsets(cluster, consumer.position, consumer.cursor.Keys, o.send);
      cluster := c;
      if err == RequiresAbort {
        AbortOrExit(o);
        return false;
      } else if err != NoError {
        ExitProcess(err == BadState);
        return false;
      }
      var (d, err') := CommitTransactionCall(cluster, o.commit, o.applied);
      cluster := d;
      if err' == RequiresAbort {
        AbortOrExit(o);
        return false;
      } else if err' != NoError {
        ExitProcess(err' == BadState);
        return false;
      }
      return true;
    }

    method CommitTransactionAndStartNew(o: Oracle)
      modifies this
      ensures View() == CommitAndStartNew(old(View()), o)
    {
      var committed := CommitTransaction(o);
      if phase.Exited? { return; }
      if !committed {
        RewindConsumer(o);
        if phase.Exited? { return; }
      }
      BeginOrExit(o);
    }

    /** The rebalance callback for newly assigned partitions. */
    method OnAssign(ps: set<Partition>, ok: bool)
      modifies this
      ensures View() == AssignCallback(old(View()), ps, ok)
    {
      if !ok {
        ExitProcess(false);
        return;
      }
      var offsets := FetchCommitted(ps);
      consumer := consumer.(cursor := consumer.cursor + offsets);
      cluster := cluster.(owned := cluster.owned + ps);
    }

    /** The rebalance callback for revoked partitions. */
    method OnRevoke(ps: set<Partition>, lost: bool, ok: bool, o: Oracle)
      modifies this
      ensures View() == RevokeCallback(old(View()), ps, lost, ok, o)
      ensures old(!phase.Exited? && cluster.txn != Ready && cluster.txnOffsets == map[]) && !phase.Exited? ==>
                && consumer == Consumer(old(consumer.cursor) - ps, old(consumer.position) - ps)
                && cluster.owned == old(cluster.owned) - ps && cluster.txn == InTxn && cluster.pending == []
    {
      if !phase.Exited? && cluster.txn != Ready && cluster.txnOffsets == map[] {
        Effects.RevokeStep(View(), ps, lost, ok, o);
      }
      if lost {
        AbortOrExit(o);
      } else {
        var _ := CommitTransaction(o);
      }
      if phase.Exited? { return; }
      BeginOrExit(o);
      if phase.Exited? { return; }
      if !ok {
        ExitProcess(false);
        return;
      }
      consumer := Consumer(consumer.cursor - ps, consumer.position - ps);
      cluster := cluster.(owned := cluster.owned - ps);
    }

    /** The retry loop around a full output queue. */
    method AwaitQueueSpace(reports: seq<bool>)
      modifies this
      ensures View() == WaitForQueue(old(View()), reports)
    {
      for i := 0 to |reports|
        invariant View() == WaitForQueue(old(View()), reports[..i])
      {
        assert reports[..i + 1] == reports[..i] + [reports[i]];
        if !reports[i] && cluster.txn == InTxn {
          cluster := cluster.(txn := MustAbort);
        }
      }
      assert reports[..|reports|] == reports;
    }

    method ProcessMessage(p: Partition, offset: nat, r: Record, reports: seq<bool>, accepted: bool, o: Oracle)
      modifies this
      ensures View() == ExactlyOnce.ProcessMessage(old(View()), p, offset, r, reports, accepted, o)
    {
      if |r.payload| == 0 {
        assert Runs(r.payload, 0) == [];
        return;
      }
      var sum := SumIntegers(r.payload);
      if sum == 0 {
        return;
      }
      var value := Numeral(sum);
      AwaitQueueSpace(reports);
      if accepted && cluster.txn == InTxn {
        cluster := cluster.(pending := cluster.pending + [Entry(p, offset, Output(r.key, value))]);
      } else {
        AbortTransactionAndRewind(o);
      }
    }

    /** The main loop before the poll. */
    method TopOfLoop(now: int, later: int, o: Oracle)
      modifies this
      ensures View() == LoopTop(old(View()), now, later, o)
    {
      if msgcnt > 0 && (msgcnt > 100 || lastCommit + 5 <= now) {
        CommitTransactionAndStartNew(o);
        if phase.Exited? { return; }
        msgcnt, lastCommit := 0, later;
      }
      phase := InPoll;
    }

    /** The consumer moves past the message it hands to the application. */
    method TakeMessage(p: Partition)
      requires p in consumer.cursor
      modifies this
      ensures View() == Take(old(View()), p)
    {
      var next := consumer.cursor[p] + 1;
      consumer := Consumer(consumer.cursor[p := next], consumer.position[p := next]);
      covered := covered + 1;
    }

    /** The main loop after a poll that returned a message. */
    method OnMessage(p: Partition, reports: seq<bool>, accepted: bool, o: Oracle)
      requires p in consumer.cursor && consumer.cursor[p] < |Log(cluster, p)|
      modifies this
      ensures View() == HandleMessage(old(View()), p, reports, accepted, o)
    {
      var offset := consumer.cursor[p];
      var r := Log(cluster, p)[offset];
      TakeMessage(p);
      ProcessMessage(p, offset, r, reports, accepted, o);
      if phase.Exited? { return; }
      msgcnt := msgcnt + 1;
      phase := AtTop;
    }

    /** After the main loop. */
    method Close(lost: bool, ok: bool, o: Oracle)
      requires !phase.Exited?
      modifies this
      ensures View() == CloseConsumer(old(View()), lost, ok, o)
    {
      if consumer.cursor != map[] {
        OnRevoke(consumer.cursor.Keys, lost, ok, o);
        if phase.Exited? { return; }
      }
      ExitProcess(false);
    }

    /** `main` up to the loop. */
    method Start(ready: bool, o: Oracle)
      modifies this
      ensures View() == Restart(old(View()), ready, o)
    {
      cluster := cluster.(pending := [], txnOffsets := map[], txn := Ready);
      consumer := NO_CONSUMER;
      msgcnt, lastCommit, covered, phase := 0, 0, 0, AtTop;
      if !ready {
        ExitProcess(false);
        return;
      }
      BeginOrExit(o);
    }

    method Dispatch(e: Event)
      modifies this
      ensures View() == Step(old(View()), e)
    {
      hide LoopTop, AssignCallback, RevokeCallback, HandleMessage, CloseConsumer, Restart, Expected;
      if !Enabled(State(Emit, cluster, consumer, msgcnt, lastCommit, 0, phase), e) {
        return;
      }
      match e
      case Append(p, r) => cluster := cluster.(log := cluster.log[p := Log(cluster, p) + [r]]);
      case OthersCommit(p, n) =>
        var start := ExactlyOnce.Start(cluster, p);
        cluster := cluster.(output := cluster.output + Expected(Emit, Log(cluster, p), p, start, start + n),
                            committed := cluster.committed[p := start + n]);
      case Evict => cluster := cluster.(owned := {});
      case DeliveryFailure => cluster := cluster.(txn := MustAbort);
      case Turn(now, later, o) => TopOfLoop(now, later, o);
      case Assigned(ps, ok) => OnAssign(ps, ok);
      case Revoked(ps, lost, ok, o) => OnRevoke(ps, lost, ok, o);
      case Nothing => phase := AtTop;
      case Message(p, reports, accepted, o) => OnMessage(p, reports, accepted, o);
      case Stop(lost, ok, o) => Close(lost, ok, o);
      case Crash => ExitProcess(false);
      case Started(ready, o) => Start(ready, o);
    }

    /** A whole run from the beginning: nothing is committed twice or made up, no
        transactional call is made in the wrong state, at most 101 messages are in the
        open transaction, and processing is exactly-once if every step was clean. */
    method RunEvents(es: seq<Event>)
      requires exists log :: View() == Initial(Emit, log)
      modifies this
      ensures View() == Run(old(View()), es)
      ensures Shape.Shape(View()) && Safety.Sound(View())
      ensures Refinement.CleanThroughout(old(View()), es) ==> Refinement.ExactlyOnceState(View())
    {
      ghost var s0 := View();
      for i := 0 to |es|
        invariant View() == Run(s0, es[..i])
      {
        assert es[..i + 1][..i] == es[..i];
        Dispatch(es[i]);
      }
      assert es[..|es|] == es;
      ghost var log :| s0 == Initial(Emit, log);
      Refinement.EveryRunKeepsShape(Emit, log, es);
      Safety.EveryRunIsSound(Emit, log, es);
      Refinement.ExactlyOnceIffClean(Emit, log, es);
    }
  }
}
