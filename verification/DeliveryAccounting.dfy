/** The producer mode of examples/rdkafka_performance.c: the counters that decide when
    the tool stops and what it exits with, across the produce loop and the delivery
    report callback. Delivery reports are on. */
module DeliveryAccounting {

  /** The counters, and the messages the library holds. `gaveUp` says the last produce
      call did not get its message accepted, `counterStop` that the callback ended the run. */
  datatype Counters = Counters(
    msgs: nat,
    waiting: int,
    waitProduce: int,
    delivered: nat,
    failed: nat,
    txErr: nat,
    inFlight: nat,
    run: bool,
    forever: bool,
    gaveUp: bool,
    counterStop: bool)

  /** How a produce call that is not turned away for a full queue ends: the run may be
      interrupted before it is made. */
  datatype Answer = Accepted | Refused | Interrupted

  /** One turn of the produce loop: queue-full answers, each followed by a poll serving
      delivery reports, the final answer, the reports served after it, and whether a
      signal ended the run meanwhile. */
  datatype Turn = Turn(full: seq<seq<bool>>, answer: Answer, after: seq<bool>, signal: bool)

  function Start(msgcnt: int): Counters {
    Counters(0, 0, msgcnt, 0, 0, 0, 0, true, msgcnt == -1, false, false)
  }

  /** What is true between any two calls, for a target of `msgcnt` messages. */
  predicate Balanced(c: Counters, msgcnt: int) {
    && c.waiting + c.delivered + c.failed == c.msgs
    && c.waiting == c.inFlight + (if c.gaveUp then 1 else 0)
    && (c.gaveUp ==> !c.run)
    && (if msgcnt == -1 then c.waitProduce == -1 else c.waitProduce == msgcnt - c.msgs)
    && (c.counterStop ==> !c.run && c.msgs == msgcnt && c.delivered + c.failed == msgcnt && c.inFlight == 0 && !c.gaveUp)
  }

  /** The produce loop goes on. */
  predicate Wanted(c: Counters, msgcnt: int) {
    c.run && (msgcnt == -1 || c.msgs < msgcnt)
  }

  /** `msg_delivered`, for a message the library holds. */
  function Delivered(c: Counters, ok: bool): Counters
    requires c.inFlight > 0
  {
    var d := c.(inFlight := c.inFlight - 1, waiting := c.waiting - 1,
                delivered := if ok then c.delivered + 1 else c.delivered,
                failed := if ok then c.failed else c.failed + 1);
    if d.waitProduce == 0 && d.waiting == 0 && !d.forever then d.(run := false, counterStop := true) else d
  }

  /** A poll serves the reports there are messages for. */
  function Polled(c: Counters, reports: seq<bool>): Counters {
    if reports == [] then c
    else
      var d := Polled(c, reports[..|reports| - 1]);
      if d.inFlight > 0 then Delivered(d, reports[|reports| - 1]) else d
  }

  function Retried(c: Counters, full: seq<seq<bool>>): Counters {
    if full == [] then c
    else
      var d := Retried(c, full[..|full| - 1]);
      Polled(d.(txErr := d.txErr + 1), full[|full| - 1])
  }

  /** The final answer; whatever it is, the message is counted. */
  function Counted(c: Counters, answer: Answer): Counters {
    var d := match answer
      case Accepted => c.(inFlight := c.inFlight + 1)
      case Refused => c.(txErr := c.txErr + 1, run := false, gaveUp := true)
      case Interrupted => c.(run := false, gaveUp := true);
    d.(waiting := d.waiting + 1, waitProduce := if d.waitProduce != -1 then d.waitProduce - 1 else -1, msgs := d.msgs + 1)
  }

  function Produced(c: Counters, turn: Turn): Counters {
    var d := Polled(Counted(Retried(c, turn.full), turn.answer), turn.after);
    if turn.signal then d.(run := false) else d
  }

  lemma {:induction false} PollBalances(c: Counters, msgcnt: int, reports: seq<bool>)
    requires Balanced(c, msgcnt)
    ensures var d := Polled(c, reports);
            && Balanced(d, msgcnt) && d.msgs == c.msgs && d.gaveUp == c.gaveUp && d.forever == c.forever
            && (d.run ==> c.run)
            && (Wanted(c, msgcnt) ==> d.run && !d.counterStop)
  {
    if reports != [] {
      PollBalances(c, msgcnt, reports[..|reports| - 1]);
    }
  }

  /** While messages are left to produce, no poll ends the run. */
  lemma {:induction false} RetryBalances(c: Counters, msgcnt: int, full: seq<seq<bool>>)
    requires Balanced(c, msgcnt) && Wanted(c, msgcnt)
    ensures var d := Retried(c, full);
            Balanced(d, msgcnt) && Wanted(d, msgcnt) && d.msgs == c.msgs && !d.gaveUp && d.forever == c.forever
  {
    if full != [] {
      RetryBalances(c, msgcnt, full[..|full| - 1]);
      var d := Retried(c, full[..|full| - 1]);
      PollBalances(d.(txErr := d.txErr + 1), msgcnt, full[|full| - 1]);
    }
  }

  lemma TurnBalances(c: Counters, msgcnt: int, turn: Turn)
    requires Balanced(c, msgcnt) && Wanted(c, msgcnt)
    ensures var d := Produced(c, turn);
            Balanced(d, msgcnt) && d.msgs == c.msgs + 1 && (msgcnt >= 0 ==> d.msgs <= msgcnt) && d.forever == c.forever
            && d.gaveUp == !turn.answer.Accepted?
  {
    RetryBalances(c, msgcnt, turn.full);
    var d := Counted(Retried(c, turn.full), turn.answer);
    PollBalances(d, msgcnt, turn.after);
  }

  predicate LastGaveUp(turns: seq<Turn>) {
    turns != [] && !turns[|turns| - 1].answer.Accepted?
  }

  /** The counters after n turns of the produce loop. */
  predicate AfterTurns(c: Counters, msgcnt: int, turns: seq<Turn>, n: nat) {
    && n <= |turns| && Balanced(c, msgcnt) && c.msgs == n && (msgcnt >= 0 ==> n <= msgcnt)
    && (c.gaveUp <==> LastGaveUp(turns[..n]))
  }

  lemma AtStart(msgcnt: int, turns: seq<Turn>)
    ensures AfterTurns(Start(msgcnt), msgcnt, turns, 0)
  {
  }

  lemma NextTurn(c: Counters, msgcnt: int, turns: seq<Turn>, n: nat)
    requires AfterTurns(c, msgcnt, turns, n) && n < |turns| && Wanted(c, msgcnt)
    ensures AfterTurns(Produced(c, turns[n]), msgcnt, turns, n + 1)
  {
    TurnBalances(c, msgcnt, turns[n]);
  }

  /** The callback ends the run exactly when it may, all messages asked for are counted and
      the report just served was the last one due. */
  lemma CounterStopIff(c: Counters, msgcnt: int, ok: bool)
    requires Balanced(c, msgcnt) && c.inFlight > 0 && !c.counterStop
    ensures Delivered(c, ok).counterStop <==>
            !c.forever && c.msgs == msgcnt && c.delivered + c.failed + 1 == msgcnt
    ensures Delivered(c, ok).run <==> c.run && !Delivered(c, ok).counterStop
  {
  }

  // ----- what is counted -----

  /** How many of the reports say so. */
  function Count(reports: seq<bool>, ok: bool): nat {
    if reports == [] then 0 else Count(reports[..|reports| - 1], ok) + if reports[|reports| - 1] == ok then 1 else 0
  }

  lemma {:induction false} CountConcat(a: seq<bool>, b: seq<bool>, ok: bool)
    ensures Count(a + b, ok) == Count(a, ok) + Count(b, ok)
  {
    if b == [] {
      assert a + b == a;
    } else {
      CountConcat(a, b[..|b| - 1], ok);
      assert (a + b)[..|a + b| - 1] == a + b[..|b| - 1];
    }
  }

  lemma CountOneMore(reports: seq<bool>, ok: bool)
    ensures forall good: bool :: Count(reports + [ok], good) == Count(reports, good) + if ok == good then 1 else 0
  {
    assert (reports + [ok])[..|reports|] == reports;
  }

  lemma {:induction false} NoneIff(reports: seq<bool>, ok: bool)
    ensures Count(reports, ok) == 0 <==> ok !in reports
  {
    if reports != [] {
      NoneIff(reports[..|reports| - 1], ok);
      assert reports == reports[..|reports| - 1] + [reports[|reports| - 1]];
    }
  }

  /** The reports a poll serves: as many as there are messages in flight. */
  function Served(c: Counters, reports: seq<bool>): seq<bool> {
    if |reports| <= c.inFlight then reports else reports[..c.inFlight]
  }

  /** Good reports are counted as delivered and bad ones as failed, one message each, and
      nothing else is counted. */
  lemma {:induction false} PollCounts(c: Counters, reports: seq<bool>)
    ensures var d, served := Polled(c, reports), Served(c, reports);
            && d.delivered == c.delivered + Count(served, true) && d.failed == c.failed + Count(served, false)
            && d.inFlight == c.inFlight - |served| && d.waiting == c.waiting - |served|
            && d.msgs == c.msgs && d.waitProduce == c.waitProduce && d.txErr == c.txErr
            && d.forever == c.forever && d.gaveUp == c.gaveUp
  {
    if reports != [] {
      var front := reports[..|reports| - 1];
      PollCounts(c, front);
      if |reports| <= c.inFlight {
        assert Served(c, reports)[..|reports| - 1] == Served(c, front);
      } else {
        assert Served(c, reports) == Served(c, front);
      }
    }
  }

  /** A poll ends the run exactly if it serves the last report due of all messages asked
      for. */
  lemma {:induction false} PollStopsIff(c: Counters, msgcnt: int, reports: seq<bool>)
    requires Balanced(c, msgcnt)
    ensures var d, n := Polled(c, reports), |Served(c, reports)|;
            d.run <==> c.run && !(n > 0 && n == c.waiting && c.waitProduce == 0 && !c.forever)
  {
    if reports != [] {
      var front := reports[..|reports| - 1];
      PollStopsIff(c, msgcnt, front);
      PollCounts(c, front);
      PollBalances(c, msgcnt, front);
    }
  }

  /** The reports of several polls, in order. */
  function Joined(polls: seq<seq<bool>>): seq<bool> {
    if polls == [] then [] else Joined(polls[..|polls| - 1]) + polls[|polls| - 1]
  }

  lemma {:induction false} PolledJoins(c: Counters, x: seq<bool>, y: seq<bool>)
    ensures Polled(c, x + y) == Polled(Polled(c, x), y)
  {
    if y == [] {
      assert x + y == x;
    } else {
      PolledJoins(c, x, y[..|y| - 1]);
      assert (x + y)[..|x + y| - 1] == x + y[..|y| - 1];
    }
  }

  /** The count of errors plays no part in a poll. */
  lemma {:induction false} PolledWithErrors(c: Counters, n: nat, reports: seq<bool>)
    ensures Polled(c.(txErr := n), reports) == Polled(c, reports).(txErr := n)
  {
    hide Delivered;
    if reports != [] {
      var d := Polled(c, reports[..|reports| - 1]);
      PolledWithErrors(c, n, reports[..|reports| - 1]);
      if d.inFlight > 0 { DeliveredWithErrors(d, n, reports[|reports| - 1]); }
    }
  }

  lemma DeliveredWithErrors(c: Counters, n: nat, ok: bool)
    requires c.inFlight > 0
    ensures Delivered(c.(txErr := n), ok) == Delivered(c, ok).(txErr := n)
  {
  }

  /** Each queue-full answer is counted as an error, and the reports of the polls in between
      are served. */
  lemma {:induction false} RetryCounts(c: Counters, full: seq<seq<bool>>)
    ensures Retried(c, full) == Polled(c, Joined(full)).(txErr := c.txErr + |full|)
  {
    if full != [] {
      var front, last := full[..|full| - 1], full[|full| - 1];
      RetryCounts(c, front);
      PolledWithErrors(Polled(c, Joined(front)), c.txErr + |full|, last);
      PolledJoins(c, Joined(front), last);
    }
  }

  /** The polls of the waiting loop serve all their reports. */
  lemma {:induction false} PollsServe(c: Counters, polls: seq<seq<bool>>)
    ensures PolledAll(c, polls) == Polled(c, Joined(polls))
  {
    if polls != [] {
      PollsServe(c, polls[..|polls| - 1]);
      PolledJoins(c, Joined(polls[..|polls| - 1]), polls[|polls| - 1]);
    }
  }

  /** The reports a turn serves: those of its retries, then those after the message, which
      may itself be among the messages in flight. */
  function ServedIn(c: Counters, turn: Turn): seq<bool> {
    var early := Served(c, Joined(turn.full));
    var inFlight := c.inFlight - |early| + if turn.answer.Accepted? then 1 else 0;
    early + if |turn.after| <= inFlight then turn.after else turn.after[..inFlight]
  }

  /** A turn serves them, counting each for what it says, and adds an accepted message to
      those in flight. */
  lemma TurnServes(c: Counters, turn: Turn)
    ensures var d, served := Produced(c, turn), ServedIn(c, turn);
            && d.delivered == c.delivered + Count(served, true) && d.failed == c.failed + Count(served, false)
            && d.inFlight + |served| == c.inFlight + if turn.answer.Accepted? then 1 else 0
  {
    hide Polled, Retried, Count;
    RetryCounts(c, turn.full);
    PollCounts(c, Joined(turn.full));
    var c2 := Counted(Retried(c, turn.full), turn.answer);
    PollCounts(c2, turn.after);
    CountConcat(Served(c, Joined(turn.full)), Served(c2, turn.after), true);
    CountConcat(Served(c, Joined(turn.full)), Served(c2, turn.after), false);
  }

  /** A turn goes on exactly if the message was accepted, no signal came and the poll after
      it did not serve the last report due; it has counted every answer that was an error. */
  lemma TurnCounts(c: Counters, msgcnt: int, turn: Turn)
    requires Balanced(c, msgcnt) && Wanted(c, msgcnt)
    ensures var d := Produced(c, turn);
            && d.txErr == c.txErr + |turn.full| + (if turn.answer.Refused? then 1 else 0)
            && (d.run <==> turn.answer.Accepted? && !turn.signal && !d.counterStop)
  {
    hide Polled, Retried, Count;
    var c1 := Retried(c, turn.full);
    var c2 := Counted(c1, turn.answer);
    RetryBalances(c, msgcnt, turn.full);
    RetryCounts(c, turn.full);
    PollCounts(c, Joined(turn.full));
    PollCounts(c2, turn.after);
    StopIsMarked(c2, turn.after);
  }

  /** The mark of a counter-based stop goes with the end of the run. */
  lemma {:induction false} StopIsMarked(c: Counters, reports: seq<bool>)
    ensures var d := Polled(c, reports); (c.counterStop ==> d.counterStop) && (!c.counterStop ==> (d.run <==> c.run && !d.counterStop))
  {
    if reports != [] {
      StopIsMarked(c, reports[..|reports| - 1]);
    }
  }

  /** The exit code: the counted messages less those still in flight, against those
      delivered. */
  function ExitCode(c: Counters): int {
    if c.msgs - c.inFlight == c.delivered then 0 else 1
  }

  /** It is zero exactly if no delivery failed and no produce call gave up, be there
      messages in flight or not. */
  lemma ExitCodeIff(c: Counters, msgcnt: int)
    requires Balanced(c, msgcnt)
    ensures ExitCode(c) == 0 <==> c.failed == 0 && !c.gaveUp
  {
  }

  // ----- runs -----

  /** The turns of the produce loop, one after the other. */
  function ProducedAll(c: Counters, turns: seq<Turn>): Counters {
    if turns == [] then c else Produced(ProducedAll(c, turns[..|turns| - 1]), turns[|turns| - 1])
  }

  /** The polls of the waiting loop. */
  function PolledAll(c: Counters, polls: seq<seq<bool>>): Counters {
    if polls == [] then c else Polled(PolledAll(c, polls[..|polls| - 1]), polls[|polls| - 1])
  }

  class Performance {
    const msgcnt: int
    var cnt: Counters
    ghost var served: seq<bool>       // the delivery reports of the run, in order

    constructor (msgcnt: int)
      ensures this.msgcnt == msgcnt && cnt == Start(msgcnt) && served == [] && Tallies()
    {
      this.msgcnt := msgcnt;
      cnt := Start(msgcnt);
      served := [];
    }

    /** The two counters are the good and the bad reports served. */
    ghost predicate Tallies()
      reads this
    {
      cnt.delivered == Count(served, true) && cnt.failed == Count(served, false)
    }

    method OnDelivered(ok: bool)
      requires cnt.inFlight > 0
      modifies this
      ensures cnt == Delivered(old(cnt), ok) && served == old(served) + [ok]
      ensures old(Tallies()) ==> Tallies()
    {
      hide Count;
      cnt := cnt.(inFlight := cnt.inFlight - 1, waiting := cnt.waiting - 1);
      if ok {
        cnt := cnt.(delivered := cnt.delivered + 1);
      } else {
        cnt := cnt.(failed := cnt.failed + 1);
      }
      if cnt.waitProduce == 0 && cnt.waiting == 0 && !cnt.forever {
        cnt := cnt.(run := false, counterStop := true);
      }
      CountOneMore(served, ok);
      served := served + [ok];
    }

    method Poll(reports: seq<bool>)
      modifies this
      ensures cnt == Polled(old(cnt), reports) && served == old(served) + Served(old(cnt), reports)
      ensures old(Tallies()) ==> Tallies()
    {
      hide Count;
      for i := 0 to |reports|
        invariant cnt == Polled(old(cnt), reports[..i]) && served == old(served) + Served(old(cnt), reports[..i])
        invariant old(Tallies()) ==> Tallies()
      {
        assert reports[..i + 1][..i] == reports[..i];
        PollCounts(old(cnt), reports[..i]);
        if cnt.inFlight > 0 {
          OnDelivered(reports[i]);
          assert Served(old(cnt), reports[..i + 1]) == Served(old(cnt), reports[..i]) + [reports[i]];
        } else {
          assert Served(old(cnt), reports[..i + 1]) == Served(old(cnt), reports[..i]);
        }
      }
      assert reports[..|reports|] == reports;
    }

    method AwaitQueue(full: seq<seq<bool>>)
      modifies this
      ensures cnt == Retried(old(cnt), full) && old(served) <= served
      ensures old(Tallies()) ==> Tallies()
    {
      for i := 0 to |full|
        invariant cnt == Retried(old(cnt), full[..i]) && old(served) <= served
        invariant old(Tallies()) ==> Tallies()
      {
        assert full[..i + 1][..i] == full[..i];
        cnt := cnt.(txErr := cnt.txErr + 1);
        Poll(full[i]);
      }
      assert full[..|full|] == full;
    }

    /** The final answer to a produce call. */
    method CountAnswer(answer: Answer)
      modifies `cnt
      ensures cnt == Counted(old(cnt), answer)
    {
      match answer {
        case Accepted => cnt := cnt.(inFlight := cnt.inFlight + 1);
        case Refused => cnt := cnt.(txErr := cnt.txErr + 1, run := false, gaveUp := true);
        case Interrupted => cnt := cnt.(run := false, gaveUp := true);
      }
      cnt := cnt.(waiting := cnt.waiting + 1);
      if cnt.waitProduce != -1 {
        cnt := cnt.(waitProduce := cnt.waitProduce - 1);
      }
      cnt := cnt.(msgs := cnt.msgs + 1);
    }

    /** One turn of the produce loop. */
    method Produce(turn: Turn)
      modifies this
      ensures cnt == Produced(old(cnt), turn) && old(served) <= served
      ensures old(Tallies()) ==> Tallies()
    {
      hide Polled, Retried, Count;
      AwaitQueue(turn.full);
      CountAnswer(turn.answer);
      Poll(turn.after);
      if turn.signal {
        cnt := cnt.(run := false);
      }
    }

    /** A turn that is wanted keeps the books balanced. */
    method TakeTurn(turns: seq<Turn>, n: nat)
      requires n < |turns| && AfterTurns(cnt, msgcnt, turns, n) && Wanted(cnt, msgcnt) && Tallies()
      modifies this
      ensures AfterTurns(cnt, msgcnt, turns, n + 1) && Tallies()
      ensures cnt == Produced(old(cnt), turns[n])
    {
      NextTurn(cnt, msgcnt, turns, n);
      Produce(turns[n]);
    }

    /** The produce loop: it takes the turns given as long as it may go on, the books balance
        after every turn, no more messages are counted than asked for, and every report
        served is counted for what it says. */
    method ProduceAll(turns: seq<Turn>) returns (n: nat)
      requires cnt == Start(msgcnt) && served == []
      modifies this
      ensures AfterTurns(cnt, msgcnt, turns, n) && Tallies()
      ensures n <= |turns| && cnt == ProducedAll(Start(msgcnt), turns[..n])
      ensures n == |turns| || !Wanted(cnt, msgcnt)
      ensures forall j :: 0 <= j < n ==> Wanted(ProducedAll(Start(msgcnt), turns[..j]), msgcnt)
    {
      hide AfterTurns, Produced;
      AtStart(msgcnt, turns);
      n := 0;
      while n < |turns| && Wanted(cnt, msgcnt)
        invariant n <= |turns| && AfterTurns(cnt, msgcnt, turns, n) && Tallies()
        invariant cnt == ProducedAll(Start(msgcnt), turns[..n])
        invariant forall j :: 0 <= j < n ==> Wanted(ProducedAll(Start(msgcnt), turns[..j]), msgcnt)
        decreases |turns| - n
      {
        TakeTurn(turns, n);
        assert turns[..n + 1][..n] == turns[..n];
        n := n + 1;
      }
    }

    /** Waiting for the deliveries, and the exit code: zero exactly if every report of the
        run was good and the last produce call did not give up. */
    method Finish(polls: seq<seq<bool>>) returns (exitcode: int, k: nat)
      requires Balanced(cnt, msgcnt) && Tallies()
      modifies this
      ensures k <= |polls| && cnt == PolledAll(old(cnt).(forever := false), polls[..k]) && (k == |polls| || !cnt.run)
      ensures Balanced(cnt, msgcnt) && cnt.msgs == old(cnt.msgs) && cnt.gaveUp == old(cnt.gaveUp)
      ensures Tallies() && old(served) <= served
      ensures exitcode == 0 <==> false !in served && !cnt.gaveUp
      ensures cnt.counterStop ==> cnt.delivered + cnt.failed == cnt.msgs == msgcnt && cnt.inFlight == 0
    {
      hide Polled, Count;
      cnt := cnt.(forever := false);
      k := 0;
      while k < |polls| && cnt.run
        invariant k <= |polls| && cnt == PolledAll(old(cnt).(forever := false), polls[..k])
        invariant Balanced(cnt, msgcnt) && cnt.msgs == old(cnt.msgs) && cnt.gaveUp == old(cnt.gaveUp)
        invariant Tallies() && old(served) <= served
      {
        PollBalances(cnt, msgcnt, polls[k]);
        Poll(polls[k]);
        assert polls[..k + 1][..k] == polls[..k];
        k := k + 1;
      }
      ExitCodeIff(cnt, msgcnt);
      NoneIff(served, false);
      var outq := cnt.inFlight;
      exitcode := if cnt.msgs - outq == cnt.delivered then 0 else 1;
    }

    /** The producer mode from start to end. */
    method RunProducer(turns: seq<Turn>, polls: seq<seq<bool>>) returns (exitcode: int, n: nat)
      requires cnt == Start(msgcnt) && served == []
      modifies this
      ensures n <= |turns| && (exitcode == 0 <==> false !in served && !LastGaveUp(turns[..n]))
      ensures cnt.msgs == n && |served| + cnt.inFlight + (if LastGaveUp(turns[..n]) then 1 else 0) == n
    {
      hide Count;
      n := ProduceAll(turns);
      var k;
      exitcode, k := Finish(polls);
      CountBoth(served);
    }
  }

  lemma {:induction false} CountBoth(reports: seq<bool>)
    ensures Count(reports, true) + Count(reports, false) == |reports|
  {
    if reports != [] {
      CountBoth(reports[..|reports| - 1]);
    }
  }
}
