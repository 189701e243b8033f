/** The exactly-once consume-transform-produce example for brokers with KIP-447
    (examples/transactions.c), as a step system: one application process with its
    transactional producer and its group consumer, the brokers behind them, and
    the rest of the consumer group.

    Library calls are functions of the cluster and of an `Oracle`, which fixes how
    each call of one step ends. A step function describes what the application does
    between two points where it gives control away. */
module ExactlyOnce {
  import opened MessageFunction
  import opened OutputStream

  /** Transaction state of the producer: none open, open, or open with an error
      that only an abort can clear. */
  datatype Txn = Ready | InTxn | MustAbort

  /** What the brokers and the group coordinator hold.
      `output` is what a read-committed consumer of the output topic sees, `pending`
      and `txnOffsets` belong to the transaction in progress, and `owned` is what the
      coordinator regards as this member's partitions. */
  datatype Cluster = Cluster(
    log: map<Partition, seq<Record>>,
    committed: map<Partition, nat>,
    output: seq<Entry>,
    pending: seq<Entry>,
    txnOffsets: map<Partition, nat>,
    txn: Txn,
    owned: set<Partition>)

  /** The consumer handle: where each assigned partition is read next, and the
      application position of the partitions that have one. A position is missing
      from an assign or a seek until the next message of that partition. */
  datatype Consumer = Consumer(cursor: map<Partition, nat>, position: map<Partition, nat>)

  /** At the top of the main loop, inside the consumer poll, or gone. `misuse` says
      that the process ended because of a call in the wrong transaction state. */
  datatype Phase = AtTop | InPoll | Exited(misuse: bool)

  /** `covered` counts the messages read since the open transaction began. */
  datatype State = State(
    process: Transform,
    cluster: Cluster,
    consumer: Consumer,
    msgcnt: nat,
    lastCommit: int,
    covered: nat,
    phase: Phase)

  /** How a transactional call ends when the producer state does not decide it. */
  datatype Ask = Succeeds | Aborts | Fails

  datatype Err = NoError | RequiresAbort | Fatal | BadState

  /** The outcome of every library call one step may make. `applied` is whether a
      commit that failed fatally took effect on the brokers all the same. */
  datatype Oracle = Oracle(
    assignment: bool,
    position: bool,
    send: Ask,
    commit: Ask,
    applied: bool,
    abort: Ask,
    begin: Ask,
    rewindAssignment: bool,
    rewindCommitted: bool,
    rewindSeek: bool)

  // ----- the cluster -----

  function Log(c: Cluster, p: Partition): seq<Record> {
    if p in c.log then c.log[p] else []
  }

  /** The committed offset, or the beginning of the log. */
  function Start(c: Cluster, p: Partition): nat {
    if p in c.committed then c.committed[p] else 0
  }

  // ----- the producer API -----

  function BeginTransaction(c: Cluster, ask: Ask): (Cluster, Err) {
    if c.txn != Ready then (c, BadState)
    else if ask != Succeeds then (c, Fatal)
    else (c.(txn := InTxn), NoError)
  }

  function AbortTransaction(c: Cluster, ask: Ask): (Cluster, Err) {
    if c.txn == Ready then (c, BadState)
    else if ask != Succeeds then (c, Fatal)
    else (c.(pending := [], txnOffsets := map[], txn := Ready), NoError)
  }

  /** Offsets of a member the coordinator no longer regards as the owner of all it
      has assigned are refused, and the transaction must be aborted. Partitions
      without a position are not sent, and with none to send nothing happens. */
  function SendOffsets(c: Cluster, offsets: map<Partition, nat>, parts: set<Partition>, ask: Ask): (Cluster, Err) {
    if c.txn == Ready then (c, BadState)
    else if offsets == map[] then (c, NoError)
    else if ask == Fails then (c, Fatal)
    else if c.txn == MustAbort || ask == Aborts || !(parts <= c.owned) then (c.(txn := MustAbort), RequiresAbort)
    else (c.(txnOffsets := c.txnOffsets + offsets), NoError)
  }

  function Publish(c: Cluster): Cluster {
    c.(output := c.output + c.pending, committed := c.committed + c.txnOffsets,
       pending := [], txnOffsets := map[], txn := Ready)
  }

  function CommitTransactionCall(c: Cluster, ask: Ask, applied: bool): (Cluster, Err) {
    if c.txn == Ready then (c, BadState)
    else if c.txn == MustAbort then (c, if ask == Fails then Fatal else RequiresAbort)
    else match ask
      case Succeeds => (Publish(c), NoError)
      case Aborts => (c.(txn := MustAbort), RequiresAbort)
      case Fails => (if applied then Publish(c) else c, Fatal)
  }

  // ----- the application -----

  const NO_CONSUMER := Consumer(map[], map[])

  /** `fatal()` and every other end of the process. */
  function Exit(s: State, misuse: bool): State {
    s.(consumer := NO_CONSUMER, cluster := s.cluster.(owned := {}), phase := Exited(misuse))
  }

  function FatalError(s: State, err: Err): State {
    Exit(s, err == BadState)
  }

  function Committed(c: Cluster, ps: set<Partition>): map<Partition, nat> {
    map p | p in ps :: Start(c, p)
  }

  /** `rewind_consumer` */
  function RewindConsumer(s: State, o: Oracle): State {
    if !o.rewindAssignment || s.consumer.cursor == map[] then s
    else if !o.rewindCommitted || !o.rewindSeek then Exit(s, false)
    else s.(consumer := Consumer(Committed(s.cluster, s.consumer.cursor.Keys), map[]))
  }

  /** A call of `rd_kafka_begin_transaction` that ends the process on error. */
  function Begin(s: State, o: Oracle): State {
    var (c, err) := BeginTransaction(s.cluster, o.begin);
    if err != NoError then FatalError(s, err) else s.(cluster := c, covered := 0)
  }

  /** A call of `rd_kafka_abort_transaction` that ends the process on error. */
  function Abort(s: State, o: Oracle): State {
    var (c, err) := AbortTransaction(s.cluster, o.abort);
    if err != NoError then FatalError(s, err) else s.(cluster := c)
  }

  /** `abort_transaction_and_rewind` */
  function AbortAndRewind(s: State, o: Oracle): State {
    var s1 := Abort(s, o);
    if s1.phase.Exited? then s1 else
    var s2 := RewindConsumer(s1, o);
    if s2.phase.Exited? then s2 else
    Begin(s2, o)
  }

  /** `commit_transaction`, with its result: whether the transaction was committed. */
  function CommitTransaction(s: State, o: Oracle): (State, bool) {
    if !o.assignment || s.consumer.cursor == map[] then (Abort(s, o), false)
    else if !o.position then (Exit(s, false), false)
    else
      var (c, err) := SendOffsets(s.cluster, s.consumer.position, s.consumer.cursor.Keys, o.send);
      AfterSend(s.(cluster := c), err, o)
  }

  function AfterSend(s: State, err: Err, o: Oracle): (State, bool) {
    if err == RequiresAbort then (Abort(s, o), false)
    else if err != NoError then (FatalError(s, err), false)
    else
      var (c, err') := CommitTransactionCall(s.cluster, o.commit, o.applied);
      AfterCommit(s.(cluster := c), err', o)
  }

  function AfterCommit(s: State, err: Err, o: Oracle): (State, bool) {
    if err == RequiresAbort then (Abort(s, o), false)
    else if err != NoError then (FatalError(s, err), false)
    else (s, true)
  }

  /** `commit_transaction_and_start_new` */
  function CommitAndStartNew(s: State, o: Oracle): State {
    var (s1, committed) := CommitTransaction(s, o);
    if s1.phase.Exited? then s1 else
    var s2 := if committed then s1 else RewindConsumer(s1, o);
    if s2.phase.Exited? then s2 else
    Begin(s2, o)
  }

  /** The first part of a main loop turn, up to the poll. */
  function LoopTop(s: State, now: int, later: int, o: Oracle): State {
    if s.msgcnt > 0 && (s.msgcnt > 100 || s.lastCommit + 5 <= now) then
      var s1 := CommitAndStartNew(s, o);
      if s1.phase.Exited? then s1 else s1.(msgcnt := 0, lastCommit := later, phase := InPoll)
    else s.(phase := InPoll)
  }

  /** The assign branch of the rebalance callback. Reading starts at the committed
      offset, or at the beginning (`auto.offset.reset` is `earliest`). */
  function AssignCallback(s: State, ps: set<Partition>, ok: bool): State {
    if !ok then Exit(s, false)
    else s.(consumer := s.consumer.(cursor := s.consumer.cursor + Committed(s.cluster, ps)),
            cluster := s.cluster.(owned := s.cluster.owned + ps))
  }

  function Unassign(s: State, ps: set<Partition>): State {
    s.(consumer := Consumer(s.consumer.cursor - ps, s.consumer.position - ps),
       cluster := s.cluster.(owned := s.cluster.owned - ps))
  }

  /** Ending the open transaction from the rebalance callback: an assignment that was
      lost is aborted, any other is committed, and whether that worked is not asked. */
  function EndTransaction(s: State, lost: bool, o: Oracle): State {
    var s1 := if lost then Abort(s, o) else CommitTransaction(s, o).0;
    if s1.phase.Exited? then s1 else Begin(s1, o)
  }

  /** The revoke branch of the rebalance callback. */
  function RevokeCallback(s: State, ps: set<Partition>, lost: bool, ok: bool, o: Oracle): State {
    var s1 := EndTransaction(s, lost, o);
    if s1.phase.Exited? then s1
    else if ok then Unassign(s1, ps)
    else Exit(s1, false)
  }

  /** The consumer hands out the next message of `p`. */
  function Take(s: State, p: Partition): State
    requires p in s.consumer.cursor
  {
    var next := s.consumer.cursor[p] + 1;
    s.(consumer := Consumer(s.consumer.cursor[p := next], s.consumer.position[p := next]), covered := s.covered + 1)
  }

  /** Waiting for queue space serves delivery reports, and one of a message that
      could not be delivered leaves the transaction to be aborted. */
  function WaitForQueue(s: State, reports: seq<bool>): State {
    if s.cluster.txn == InTxn && false in reports then s.(cluster := s.cluster.(txn := MustAbort)) else s
  }

  /** The producer accepts output records into the open transaction. */
  function Produce(s: State, es: seq<Entry>): State {
    s.(cluster := s.cluster.(pending := s.cluster.pending + es))
  }

  /** `process_message` on the message just taken. `reports` has one element per
      full-queue answer, telling whether the reports served then were all good. */
  function ProcessMessage(s: State, p: Partition, offset: nat, r: Record, reports: seq<bool>, accepted: bool, o: Oracle): State {
    var es := Tagged(s.process, p, offset, r);
    if es == [] then s
    else
      var s1 := WaitForQueue(s, reports);
      if accepted && s1.cluster.txn == InTxn then Produce(s1, es)
      else AbortAndRewind(s1, o)
  }

  /** The rest of a main loop turn in which the poll returned a message. */
  function HandleMessage(s: State, p: Partition, reports: seq<bool>, accepted: bool, o: Oracle): State
    requires p in s.consumer.cursor && s.consumer.cursor[p] < |Log(s.cluster, p)|
  {
    var offset := s.consumer.cursor[p];
    var s1 := ProcessMessage(Take(s, p), p, offset, Log(s.cluster, p)[offset], reports, accepted, o);
    if s1.phase.Exited? then s1 else s1.(msgcnt := s1.msgcnt + 1, phase := AtTop)
  }

  /** `rd_kafka_consumer_close` after the loop, then the end of the process. */
  function CloseConsumer(s: State, lost: bool, ok: bool, o: Oracle): State {
    var s1 := if s.consumer.cursor == map[] then s else RevokeCallback(s, s.consumer.cursor.Keys, lost, ok, o);
    if s1.phase.Exited? then s1 else Exit(s1, false)
  }

  /** A new process with the same transactional id: initialising it rolls back what
      the previous one left open. */
  function Restart(s: State, ready: bool, o: Oracle): State {
    var c := s.cluster.(pending := [], txnOffsets := map[], txn := Ready);
    var s1 := State(s.process, c, NO_CONSUMER, 0, 0, 0, AtTop);
    if ready then Begin(s1, o) else Exit(s1, false)
  }

  // ----- runs -----

  datatype Event =
    | Append(p: Partition, r: Record)                   // somebody writes to the input topic
    | OthersCommit(p: Partition, n: nat)                // another member processes and commits p
    | Evict                                             // the coordinator drops this member
    | DeliveryFailure                                   // a pending output record is not delivered
    | Turn(now: int, later: int, o: Oracle)             // loop top, up to the poll
    | Assigned(ps: set<Partition>, ok: bool)            // rebalance callback, assign
    | Revoked(ps: set<Partition>, lost: bool, ok: bool, o: Oracle)   // rebalance callback, revoke
    | Nothing                                           // poll timeout or consumer error
    | Message(p: Partition, reports: seq<bool>, accepted: bool, o: Oracle)
    | Stop(lost: bool, ok: bool, o: Oracle)             // signal: leave the loop and close
    | Crash                                             // the process dies anywhere
    | Started(ready: bool, o: Oracle)

  /** Which events can happen in a state. */
  predicate Enabled(s: State, e: Event) {
    match e
    case Append(_, _) => true
    case OthersCommit(p, n) => p !in s.cluster.owned && Start(s.cluster, p) + n <= |Log(s.cluster, p)|
    case Evict => true
    case DeliveryFailure => s.cluster.txn == InTxn
    case Turn(_, _, _) => s.phase.AtTop?
    case Assigned(ps, _) => s.phase.InPoll? && ps !! s.consumer.cursor.Keys
    case Revoked(ps, _, _, _) => s.phase.InPoll? && ps <= s.consumer.cursor.Keys
    case Nothing => s.phase.InPoll?
    case Message(p, _, _, _) => s.phase.InPoll? && p in s.consumer.cursor && s.consumer.cursor[p] < |Log(s.cluster, p)|
    case Stop(_, _, _) => s.phase.AtTop?
    case Crash => !s.phase.Exited?
    case Started(_, _) => s.phase.Exited?
  }

  /** Another member processes the next n messages of a partition it owns. */
  function CommitByOthers(s: State, p: Partition, n: nat): State
    requires Start(s.cluster, p) + n <= |Log(s.cluster, p)|
  {
    var c := s.cluster;
    var start := Start(c, p);
    s.(cluster := c.(output := c.output + Expected(s.process, Log(c, p), p, start, start + n),
                     committed := c.committed[p := start + n]))
  }

  function Step(s: State, e: Event): State {
    if !Enabled(s, e) then s else
    var c := s.cluster;
    match e
    case Append(p, r) => s.(cluster := c.(log := c.log[p := Log(c, p) + [r]]))
    case OthersCommit(p, n) => CommitByOthers(s, p, n)
    case Evict => s.(cluster := c.(owned := {}))
    case DeliveryFailure => s.(cluster := c.(txn := MustAbort))
    case Turn(now, later, o) => LoopTop(s, now, later, o)
    case Assigned(ps, ok) => AssignCallback(s, ps, ok)
    case Revoked(ps, lost, ok, o) => RevokeCallback(s, ps, lost, ok, o)
    case Nothing => s.(phase := AtTop)
    case Message(p, reports, accepted, o) => HandleMessage(s, p, reports, accepted, o)
    case Stop(lost, ok, o) => CloseConsumer(s, lost, ok, o)
    case Crash => Exit(s, false)
    case Started(ready, o) => Restart(s, ready, o)
  }

  /** Before the first start of the application, over any input logs. */
  function Initial(process: Transform, log: map<Partition, seq<Record>>): State {
    State(process, Cluster(log, map[], [], [], map[], Ready, {}), NO_CONSUMER, 0, 0, 0, Exited(false))
  }

  /** The state after a run: any sequence of events at all. */
  function Run(s: State, es: seq<Event>): State {
    if es == [] then s else Step(Run(s, es[..|es| - 1]), es[|es| - 1])
  }
}
