/** What every step of the one-producer-per-partition program does to the whole state, told
    from the state before and the outcomes of the library calls alone. */
module OlderBrokerEffects {
  import opened MessageFunction
  import opened OutputStream
  import opened OlderBroker
  import opened OlderBrokerProofs

  /** What comes of the calls of `commit_transaction_and_start_new`. */
  datatype Answer = GoesThrough | RolledBack | ProcessEnds(applied: bool)

  function CommitAnswer(part: Part, owned: bool, o: Calls): Answer {
    if !o.position || !owned || (part.position.Some? && o.send == Fails) then ProcessEnds(false)
    else if part.position.Some? && (o.send == Aborts || part.producer.txn == MustAbort) then RolledBack
    else match o.commit
      case Succeeds => if part.producer.txn == MustAbort then RolledBack else GoesThrough
      case Aborts => RolledBack
      case Fails => ProcessEnds(part.producer.txn != MustAbort && o.applied)
  }

  /** The brokers with the transaction of a partition in effect: its output, and its
      position if it has one. */
  function InEffect(b: Brokers, p: Partition, part: Part): Brokers {
    Brokers(b.log,
            if part.position.Some? then b.committed[p := part.position.value] else b.committed,
            if part.position.Some? && p !in b.base then b.base[p := part.origin] else b.base,
            b.output + part.producer.pending, b.owned)
  }

  /** The process has ended by itself, leaving the brokers as they are. */
  function Ended(w: World, b: Brokers): World {
    World(w.process, b.(owned := {}), false, map[], Gone(false))
  }

  /** The partition in a new transaction, at its committed offset or the beginning. */
  function Rewound(b: Brokers, p: Partition, part: Part, served: bool): Part {
    var n := if p in b.committed then b.committed[p] else 0;
    Part(Producer(InTxn, []), n, if served then None else part.position, n, part.msgcnt, part.lastCommit)
  }

  /** The partition in a new transaction, where it is. */
  function Renewed(part: Part): Part {
    Part(Producer(InTxn, []), part.cursor, part.position,
         if part.position == Some(part.cursor) then part.cursor else part.origin, part.msgcnt, part.lastCommit)
  }

  function With(w: World, p: Partition, part: Part): World {
    w.(parts := w.parts[p := part])
  }

  // ----- the transaction -----

  lemma RewindStep(w: World, p: Partition, o: Calls)
    requires Running(w) && p in w.parts && w.parts[p].producer.txn != Ready
    ensures AbortAndRewind(w, p, o) ==
            if RewindWorks(o) then With(w, p, Rewound(w.brokers, p, w.parts[p], o.served)) else Ended(w, w.brokers)
  {
  }

  /** What `commit_transaction_and_start_new` leaves. */
  function Committed(w: World, p: Partition, o: Calls, o': Calls): World
    requires p in w.parts
  {
    var part, b := w.parts[p], w.brokers;
    match CommitAnswer(part, p in b.owned, o)
    case ProcessEnds(applied) => Ended(w, if applied then InEffect(b, p, part) else b)
    case RolledBack => if RewindWorks(o') then With(w, p, Rewound(b, p, part, o'.served)) else Ended(w, b)
    case GoesThrough =>
      if o.begin then With(w.(brokers := InEffect(b, p, part)), p, Renewed(part)) else Ended(w, InEffect(b, p, part))
  }

  /** When the calls roll back, and when they take effect. */
  lemma CommitAnswers(w: World, p: Partition, o: Calls)
    requires p in w.parts && w.parts[p].producer.txn != Ready && o.position
    ensures var answer := CommitAnswer(w.parts[p], p in w.brokers.owned, o);
            && (MustRollBack(w, p, o) <==> answer == RolledBack)
            && (Publishes(w, p, o) <==> answer == GoesThrough || answer == ProcessEnds(true))
            && (answer == GoesThrough ==> o.commit == Succeeds)
            && (answer == ProcessEnds(true) ==> o.commit == Fails)
  {
  }

  lemma CommitStep(w: World, p: Partition, o: Calls, o': Calls)
    requires Running(w) && p in w.parts && w.parts[p].producer.txn != Ready
    ensures CommitAndStartNew(w, p, o, o') == Committed(w, p, o, o')
  {
    hide AbortAndRewind, MustRollBack, Publishes;
    if o.position {
      CommitAnswers(w, p, o);
    } else {
      assert CommitAnswer(w.parts[p], p in w.brokers.owned, o) == ProcessEnds(false);
    }
    RewindStep(w, p, o');
    if CommitAnswer(w.parts[p], p in w.brokers.owned, o) == GoesThrough {
      assert Publish(w, p, w.parts[p].position) == w.(brokers := InEffect(w.brokers, p, w.parts[p]));
    }
  }

  /** Calls in the wrong transaction state are what ends a process with misuse. */
  lemma MisuseIsSeen(w: World, p: Partition, o: Calls, o': Calls)
    requires Running(w) && p in w.parts
    ensures AbortAndRewind(w, p, o).phase == Gone(true) <==> w.parts[p].producer.txn == Ready
    ensures CommitAndStartNew(w, p, o, o').phase == Gone(true) <==> w.parts[p].producer.txn == Ready
  {
  }

  // ----- the main loop -----

  /** The partition once its message is processed and counted: past the message with its
      output pending, or rewound where the output was refused. */
  function Handled(w: World, p: Partition, rejected: bool, served: bool): Part
    requires p in w.parts && w.parts[p].cursor < |Log(w, p)|
  {
    var part := w.parts[p];
    var n := part.cursor;
    var more := match w.process(Log(w, p)[n]) case None => [] case Some(out) => [Entry(p, n, out)];
    var past := Part(Producer(part.producer.txn, part.producer.pending + more), n + 1, Some(n + 1), part.origin, part.msgcnt + 1, part.lastCommit);
    if rejected then Rewound(w.brokers, p, past, served) else past
  }

  /** Before the next poll a seek asked for has been carried out. */
  function Seeked(w: World, p: Partition): World {
    if p in w.parts && w.parts[p].position != Some(w.parts[p].cursor) then With(w, p, w.parts[p].(position := None)) else w
  }

  /** A commit that is due starts the count and the clock anew, whatever came of it. */
  function Anew(w: World, p: Partition, later: int): World {
    if p in w.parts then With(w, p, w.parts[p].(msgcnt := 0, lastCommit := later)) else w
  }

  /** Two updates of one partition are the last one. */
  lemma WithTwice(w: World, t: World, p: Partition, part: Part)
    requires p in w.parts && t == With(w, p, part)
    ensures forall next: Part :: With(t, p, next) == With(w, p, next)
  {
    forall next: Part
      ensures With(t, p, next) == With(w, p, next)
    {
      assert w.parts[p := part][p := next] == w.parts[p := next];
    }
  }

  lemma OfferedStep(w: World, p: Partition, es: seq<Entry>, reports: seq<bool>, accepted: bool, o: Calls)
    requires Running(w) && p in w.parts && w.parts[p].producer.txn != Ready
    ensures var t, part := OfferOutput(w, p, es, reports, accepted, o), w.parts[p];
            if accepted && part.producer.txn == InTxn && false !in reports
            then t == With(w, p, part.(producer := Producer(InTxn, part.producer.pending + es)))
            else if RewindWorks(o) then t == With(w, p, Rewound(w.brokers, p, part, o.served))
            else t == Ended(w, w.brokers)
  {
    hide AbortAndRewind;
    var part := w.parts[p];
    var u := With(w, p, part.(producer := WaitForQueue(part.producer, reports)));
    RewindStep(u, p, o);
    WithTwice(w, u, p, u.parts[p]);
  }

  lemma ProcessedStep(w: World, p: Partition, reports: seq<bool>, accepted: bool, o: Calls)
    requires Running(w) && p in w.parts && w.parts[p].cursor < |Log(w, p)| && w.parts[p].producer.txn != Ready
    ensures var t := Processed(w, p, reports, accepted, o);
            var rejected := Rejected(w, p, reports, accepted);
            if rejected && !RewindWorks(o) then t == Ended(w, w.brokers)
            else p in t.parts && Counted(t, p) == With(w, p, Handled(w, p, rejected, o.served))
  {
    hide OfferOutput;
    var n := w.parts[p].cursor;
    var es := Tagged(w.process, p, n, Log(w, p)[n]);
    var u, t := Take(w, p), Processed(w, p, reports, accepted, o);
    WithTwice(w, u, p, u.parts[p]);
    if es == [] {
      assert w.parts[p].producer.pending + [] == w.parts[p].producer.pending;
      assert w.parts[p].producer == Producer(w.parts[p].producer.txn, w.parts[p].producer.pending);
    } else {
      OfferedStep(u, p, es, reports, accepted, o);
      if p in t.parts { WithTwice(w, t, p, t.parts[p]); }
    }
  }

  /** What a turn leaves, given the state with the message processed and counted. */
  function Turned(w: World, p: Partition, due: bool, later: int, o: Calls, o': Calls): World
    requires p in w.parts
  {
    Seeked(if due then Anew(Committed(w, p, o, o'), p, later) else w, p)
  }

  lemma FinishStep(w: World, p: Partition, now: int, later: int, o: Calls, o': Calls)
    requires Running(w) && p in w.parts && w.parts[p].producer.txn != Ready
    ensures FinishTurn(w, p, now, later, o, o') == Turned(Counted(w, p), p, CommitDue(w.parts[p], now), later, o, o')
  {
    hide CommitAndStartNew;
    CommitStep(Counted(w, p), p, o, o');
  }

  /** A whole turn of the main loop: the message is taken and its output added or the
      partition rewound, and it is counted; if that makes more than 100 or the last commit is
      five seconds old, the transaction is committed and counting starts anew. */
  lemma TurnStep(w: World, p: Partition, now: int, later: int, reports: seq<bool>, accepted: bool, o1: Calls, o2: Calls, o3: Calls)
    requires Running(w) && p in w.parts && w.parts[p].cursor < |Log(w, p)| && w.parts[p].producer.txn != Ready
    ensures var rejected := Rejected(w, p, reports, accepted);
            HandleMessage(w, p, now, later, reports, accepted, o1, o2, o3) ==
            if rejected && !RewindWorks(o1) then Ended(w, w.brokers)
            else Turned(With(w, p, Handled(w, p, rejected, o1.served)), p, CommitDue(w.parts[p], now), later, o2, o3)
  {
    hide Processed, CountAndCommit, SettlePosition, Turned, Committed;
    var w1 := Processed(w, p, reports, accepted, o1);
    ProcessedStep(w, p, reports, accepted, o1);
    if p in w1.parts {
      var u := Counted(w1, p);
      assert u.parts[p].msgcnt == w1.parts[p].msgcnt + 1 && u.parts[p].producer == w1.parts[p].producer && u.phase == w1.phase;
      FinishStep(w1, p, now, later, o2, o3);
    }
  }

  // ----- rebalances -----

  /** Every partition given, and no other, gets a producer in an open transaction, and is
      read from its committed offset, or from where the reset policy says. */
  lemma AssignStep(w: World, reset: map<Partition, nat>, now: int, created: bool)
    ensures var t, b := AssignCallback(w, reset, now, created), w.brokers;
            if !created then t == Ended(w, b)
            else && t == World(w.process, b.(owned := b.owned + reset.Keys), true, t.parts, w.phase)
                 && t.parts.Keys == reset.Keys
                 && forall p :: p in reset ==>
                      var first := if p in b.committed then b.committed[p] else reset[p];
                      t.parts[p] == Part(Producer(InTxn, []), first, None, first, 0, now)
  {
  }

  /** All partitions are given up, their transactions without effect. */
  lemma RevokeStep(w: World)
    ensures RevokeCallback(w) == World(w.process, w.brokers.(owned := w.brokers.owned - w.parts.Keys), false, map[], w.phase)
  {
  }

  /** What happens around the program. */
  lemma OtherStep(w: World, e: Event)
    requires Enabled(w, e)
    ensures e.Crash? ==> Step(w, e) == Ended(w, w.brokers)
    ensures e.Started? ==> Step(w, e) == w.(phase := Polling)
    ensures e.FencedOff? ==> Step(w, e) == w.(brokers := w.brokers.(owned := w.brokers.owned - {e.p}))
    ensures e.DeliveryFailure? ==>
              Step(w, e) == With(w, e.p, w.parts[e.p].(producer := Producer(MustAbort, w.parts[e.p].producer.pending)))
  {
  }
}
