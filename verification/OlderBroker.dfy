/** The exactly-once example for brokers without KIP-447
    (examples/transactions-older-broker.c) as a step system: one transactional
    producer per assigned input partition, each with a transaction of its own. */
module OlderBroker {
  import opened MessageFunction
  import opened OutputStream

  datatype Txn = Ready | InTxn | MustAbort

  datatype Producer = Producer(txn: Txn, pending: seq<Entry>)

  /** One assigned partition: its `struct state` and what the consumer keeps of it.
      `origin` remembers where reading began after the last commit, rewind or assign. */
  datatype Part = Part(
    producer: Producer,
    cursor: nat,
    position: Option<nat>,
    origin: nat,
    msgcnt: nat,
    lastCommit: int)

  /** In the poll, or gone; `misuse` says a call was made in the wrong state. */
  datatype Phase = Polling | Gone(misuse: bool)

  /** What the brokers hold. `owned` are the partitions for which no other member's
      producer has been initialised since ours; `base` remembers from where a partition
      has been processed since its first commit. */
  datatype Brokers = Brokers(
    log: map<Partition, seq<Record>>,
    committed: map<Partition, nat>,
    base: map<Partition, nat>,
    output: seq<Entry>,
    owned: set<Partition>)

  /** `active` says that `assigned_partitions` is set. */
  datatype World = World(
    process: Transform,
    brokers: Brokers,
    active: bool,
    parts: map<Partition, Part>,
    phase: Phase)

  datatype Ask = Succeeds | Aborts | Fails

  /** How the library calls of one function end. `served` says whether a seek, which is
      only requested, has been carried out by the time the function returns. */
  datatype Calls = Calls(
    position: bool,
    send: Ask,
    commit: Ask,
    applied: bool,
    abort: bool,
    begin: bool,
    committed: bool,
    seek: bool,
    served: bool)

  function Log(w: World, p: Partition): seq<Record> {
    if p in w.brokers.log then w.brokers.log[p] else []
  }

  function Leave(w: World, misuse: bool): World {
    w.(brokers := w.brokers.(owned := {}), active := false, parts := map[], phase := Gone(misuse))
  }

  function Fresh(): Producer {
    Producer(InTxn, [])
  }

  /** Where a rewind seeks: the committed offset, or the beginning. */
  function RewindTarget(w: World, p: Partition): nat {
    if p in w.brokers.committed then w.brokers.committed[p] else 0
  }

  /** `abort_transaction_and_rewind` */
  function AbortAndRewind(w: World, p: Partition, o: Calls): World
    requires p in w.parts
  {
    var part := w.parts[p];
    if part.producer.txn == Ready then Leave(w, true)
    else if !o.abort || !o.begin || !o.committed || !o.seek then Leave(w, false)
    else
      var target := RewindTarget(w, p);
      w.(parts := w.parts[p := part.(producer := Fresh(), cursor := target, origin := target,
                                     position := if o.served then None else part.position)])
  }

  /** The transaction of `p` takes effect: its output and the offset it carries. */
  function Publish(w: World, p: Partition, sent: Option<nat>): World
    requires p in w.parts
  {
    var part := w.parts[p];
    var b := w.brokers.(output := w.brokers.output + part.producer.pending);
    match sent
    case None => w.(brokers := b)
    case Some(offset) =>
      w.(brokers := b.(committed := b.committed[p := offset],
                       base := if p in b.base then b.base else b.base[p := part.origin]))
  }

  /** Whether `commit_transaction_and_start_new` gets the transaction committed. Without
      a position there is nothing to send; a fenced producer can neither send nor commit. */
  predicate Publishes(w: World, p: Partition, o: Calls)
    requires p in w.parts
  {
    && w.parts[p].producer.txn == InTxn
    && o.position
    && p in w.brokers.owned
    && (w.parts[p].position.Some? ==> o.send == Succeeds)
    && (o.commit == Succeeds || (o.commit == Fails && o.applied))
  }

  /** Sending the offset or committing answers that the transaction must be aborted. */
  predicate MustRollBack(w: World, p: Partition, o: Calls)
    requires p in w.parts
  {
    var part := w.parts[p];
    && p in w.brokers.owned
    && (if part.position.Some? && o.send != Succeeds then o.send == Aborts
        else if part.producer.txn == MustAbort then part.position.Some? || o.commit != Fails
        else o.commit == Aborts)
  }

  /** `commit_transaction_and_start_new`, rolling back with the calls `o'`. */
  function CommitAndStartNew(w: World, p: Partition, o: Calls, o': Calls): World
    requires p in w.parts
  {
    var part := w.parts[p];
    if part.producer.txn == Ready then Leave(w, true)
    else if !o.position then Leave(w, false)
    else if MustRollBack(w, p, o) then AbortAndRewind(w, p, o')
    else if !Publishes(w, p, o) then Leave(w, false)
    else StartNext(Publish(w, p, part.position), p, o)
  }

  /** Beginning the next transaction after a commit. */
  function StartNext(w: World, p: Partition, o: Calls): World
    requires p in w.parts
  {
    var part := w.parts[p];
    if o.commit == Fails || !o.begin then Leave(w, false)
    else w.(parts := w.parts[p := part.(producer := Fresh(), origin := if part.position == Some(part.cursor) then part.cursor else part.origin)])
  }

  /** Waiting for queue space serves delivery reports, maybe of a failed delivery. */
  function WaitForQueue(pr: Producer, reports: seq<bool>): Producer {
    if pr.txn == InTxn && false in reports then pr.(txn := MustAbort) else pr
  }

  /** `process_message` on a message just taken at `offset`. */
  function ProcessMessage(w: World, p: Partition, offset: nat, r: Record, reports: seq<bool>, accepted: bool, o: Calls): World
    requires p in w.parts
  {
    var es := Tagged(w.process, p, offset, r);
    if es == [] then w else OfferOutput(w, p, es, reports, accepted, o)
  }

  /** Offering output to the producer, which takes it or makes the program roll back. */
  function OfferOutput(w: World, p: Partition, es: seq<Entry>, reports: seq<bool>, accepted: bool, o: Calls): World
    requires p in w.parts
  {
    var part := w.parts[p];
    var pr := WaitForQueue(part.producer, reports);
    if accepted && pr.txn == InTxn then
      w.(parts := w.parts[p := part.(producer := pr.(pending := pr.pending + es))])
    else AbortAndRewind(w.(parts := w.parts[p := part.(producer := pr)]), p, o)
  }

  function Take(w: World, p: Partition): World
    requires p in w.parts
  {
    var part := w.parts[p];
    w.(parts := w.parts[p := part.(cursor := part.cursor + 1, position := Some(part.cursor + 1))])
  }

  /** Whether a commit is due once the message is counted. */
  predicate Due(part: Part, now: int) {
    part.msgcnt + 1 > 100 || part.lastCommit + 5 <= now
  }

  function Counted(w: World, p: Partition): World
    requires p in w.parts
  {
    w.(parts := w.parts[p := w.parts[p].(msgcnt := w.parts[p].msgcnt + 1)])
  }

  /** By the next poll a requested seek has been carried out. */
  function SettlePosition(w: World, p: Partition): World
    requires p in w.parts
  {
    var part := w.parts[p];
    if part.position == Some(part.cursor) then w else w.(parts := w.parts[p := part.(position := None)])
  }

  /** Counting the message and, when due, committing. */
  function CountAndCommit(w: World, p: Partition, now: int, later: int, o: Calls, o': Calls): World
    requires p in w.parts
  {
    var w1 := Counted(w, p);
    if Due(w.parts[p], now) then ResetCount(CommitAndStartNew(w1, p, o, o'), p, later) else w1
  }

  function ResetCount(w: World, p: Partition, later: int): World {
    if p !in w.parts then w else w.(parts := w.parts[p := w.parts[p].(msgcnt := 0, lastCommit := later)])
  }

  /** One turn of the main loop in which the poll returned a message of `p`. */
  function HandleMessage(w: World, p: Partition, now: int, later: int, reports: seq<bool>, accepted: bool,
                         o1: Calls, o2: Calls, o3: Calls): World
    requires p in w.parts && w.parts[p].cursor < |Log(w, p)|
  {
    FinishTurn(Processed(w, p, reports, accepted, o1), p, now, later, o2, o3)
  }

  function FinishTurn(w: World, p: Partition, now: int, later: int, o: Calls, o': Calls): World {
    if p !in w.parts then w else
    var w1 := CountAndCommit(w, p, now, later, o, o');
    if p !in w1.parts then w1 else
    SettlePosition(w1, p)
  }

  /** The state of a turn between processing the message and counting it. */
  function Processed(w: World, p: Partition, reports: seq<bool>, accepted: bool, o: Calls): World
    requires p in w.parts && w.parts[p].cursor < |Log(w, p)|
  {
    ProcessMessage(Take(w, p), p, w.parts[p].cursor, Log(w, p)[w.parts[p].cursor], reports, accepted, o)
  }

  /** Where the consumer begins: the committed offset, or what the reset policy says. */
  function FirstOffset(b: Brokers, p: Partition, reset: nat): nat {
    if p in b.committed then b.committed[p] else reset
  }

  /** The assign branch of the rebalance callback: a producer in an open transaction
      for every partition, unless creating one fails. `reset` gives the first offset
      of partitions without a committed one. */
  function AssignCallback(w: World, reset: map<Partition, nat>, now: int, created: bool): World {
    if !created then Leave(w, false)
    else w.(active := true,
            parts := map p | p in reset ::
                       Part(Fresh(), FirstOffset(w.brokers, p, reset[p]), None, FirstOffset(w.brokers, p, reset[p]), 0, now),
            brokers := w.brokers.(owned := w.brokers.owned + reset.Keys))
  }

  /** The revoke branch: all producers are aborted and destroyed, whatever that returns. */
  function RevokeCallback(w: World): World {
    w.(brokers := w.brokers.(owned := w.brokers.owned - w.parts.Keys), active := false, parts := map[])
  }

  datatype Event =
    | Append(p: Partition, r: Record)
    | FencedOff(p: Partition)                             // another member takes the partition over
    | OthersCommit(p: Partition, first: nat, n: nat)
    | DeliveryFailure(p: Partition)
    | Assigned(reset: map<Partition, nat>, now: int, created: bool)
    | Revoked
    | Message(p: Partition, now: int, later: int, reports: seq<bool>, accepted: bool, o1: Calls, o2: Calls, o3: Calls)
    | Crash
    | Started

  predicate Enabled(w: World, e: Event) {
    match e
    case Append(_, _) => true
    case FencedOff(_) => true
    case OthersCommit(p, first, n) => p !in w.brokers.owned && FirstOffset(w.brokers, p, first) + n <= |Log(w, p)|
    case DeliveryFailure(p) => p in w.parts && w.parts[p].producer.txn == InTxn
    case Assigned(reset, _, _) => w.phase.Polling? && !w.active && forall p :: p in reset ==> reset[p] <= |Log(w, p)|
    case Revoked => w.phase.Polling? && w.active
    case Message(p, _, _, _, _, _, _, _) => w.phase.Polling? && p in w.parts && w.parts[p].cursor < |Log(w, p)|
    case Crash => w.phase.Polling?
    case Started => w.phase.Gone?
  }

  /** Another member processes and commits n messages of a partition it has taken. */
  function CommitByOthers(w: World, p: Partition, first: nat, n: nat): World
    requires FirstOffset(w.brokers, p, first) + n <= |Log(w, p)|
  {
    var start := FirstOffset(w.brokers, p, first);
    var b := w.brokers;
    w.(brokers := b.(output := b.output + Expected(w.process, Log(w, p), p, start, start + n),
                     committed := b.committed[p := start + n],
                     base := if p in b.base then b.base else b.base[p := start]))
  }

  function FailDelivery(w: World, p: Partition): World
    requires p in w.parts
  {
    var part := w.parts[p];
    w.(parts := w.parts[p := part.(producer := part.producer.(txn := MustAbort))])
  }

  function Step(w: World, e: Event): World {
    if !Enabled(w, e) then w else
    match e
    case Append(p, r) => w.(brokers := w.brokers.(log := w.brokers.log[p := Log(w, p) + [r]]))
    case FencedOff(p) => w.(brokers := w.brokers.(owned := w.brokers.owned - {p}))
    case OthersCommit(p, first, n) => CommitByOthers(w, p, first, n)
    case DeliveryFailure(p) => FailDelivery(w, p)
    case Assigned(reset, now, created) => AssignCallback(w, reset, now, created)
    case Revoked => RevokeCallback(w)
    case Message(p, now, later, reports, accepted, o1, o2, o3) => HandleMessage(w, p, now, later, reports, accepted, o1, o2, o3)
    case Crash => Leave(w, false)
    case Started => w.(phase := Polling)
  }

  function Initial(process: Transform, log: map<Partition, seq<Record>>): World {
    World(process, Brokers(log, map[], map[], [], {}), false, map[], Gone(false))
  }

  function Run(w: World, es: seq<Event>): World {
    if es == [] then w else Step(Run(w, es[..|es| - 1]), es[|es| - 1])
  }
}
