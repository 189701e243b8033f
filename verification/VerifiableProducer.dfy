/** The producer of examples/kafkatest_verifiable_client.cpp: sending numbered messages
    with retries on a full queue, and counting what becomes of them. */
module VerifiableProducer {

  /** A line of output about a message: acknowledged, or an error. */
  datatype Outcome = Outcome(index: nat, ok: bool)

  /** A delivery report served by a poll, for the message at that place in the queue. */
  datatype Delivery = Delivery(place: nat, ok: bool)

  /** How the calls of one iteration end: any number of queue-full answers, each
      followed by a poll, then the final answer and the poll after it. */
  datatype Turn = Turn(full: seq<seq<Delivery>>, accepted: bool, after: seq<Delivery>)

  /** How many lines are about a message. */
  function LinesOf(output: seq<Outcome>, i: nat): nat {
    if output == [] then 0
    else LinesOf(output[..|output| - 1], i) + if output[|output| - 1].index == i then 1 else 0
  }

  function Acks(output: seq<Outcome>): nat {
    if output == [] then 0 else Acks(output[..|output| - 1]) + if output[|output| - 1].ok then 1 else 0
  }

  /** How often a message is in the queue. */
  function Waiting(outq: seq<nat>, i: nat): nat {
    if outq == [] then 0 else Waiting(outq[1..], i) + if outq[0] == i then 1 else 0
  }

  lemma OneMoreLine(output: seq<Outcome>, o: Outcome)
    ensures forall i: nat :: LinesOf(output + [o], i) == LinesOf(output, i) + if o.index == i then 1 else 0
    ensures Acks(output + [o]) == Acks(output) + if o.ok then 1 else 0
  {
    assert (output + [o])[..|output|] == output;
  }

  function Removed(q: seq<nat>, k: nat): seq<nat>
    requires k < |q|
  {
    q[..k] + q[k + 1..]
  }

  lemma {:induction false} WaitingJoins(q: seq<nat>, q': seq<nat>, i: nat)
    ensures Waiting(q + q', i) == Waiting(q, i) + Waiting(q', i)
  {
    if q == [] {
      assert q + q' == q';
    } else {
      WaitingJoins(q[1..], q', i);
      assert (q + q')[1..] == q[1..] + q';
    }
  }

  lemma RemovedWaiting(q: seq<nat>, k: nat, i: nat)
    requires k < |q|
    ensures Waiting(q, i) == Waiting(Removed(q, k), i) + if q[k] == i then 1 else 0
  {
    assert q == q[..k] + q[k..] && q[k..][1..] == q[k + 1..];
    WaitingJoins(q[..k], q[k..], i);
    WaitingJoins(q[..k], q[k + 1..], i);
  }

  /** Every number below n is on exactly one line of output or once in the queue, and
      nothing else is. */
  ghost predicate EachOnce(output: seq<Outcome>, outq: seq<nat>, n: nat) {
    && |output| + |outq| == n
    && forall i: nat :: LinesOf(output, i) + Waiting(outq, i) == if i < n then 1 else 0
  }

  lemma DeliveredOnce(output: seq<Outcome>, outq: seq<nat>, n: nat, k: nat, ok: bool)
    requires EachOnce(output, outq, n) && k < |outq|
    ensures EachOnce(output + [Outcome(outq[k], ok)], Removed(outq, k), n)
  {
    OneMoreLine(output, Outcome(outq[k], ok));
    forall i: nat { RemovedWaiting(outq, k, i); }
  }

  lemma AcceptedOnce(output: seq<Outcome>, outq: seq<nat>, n: nat)
    requires EachOnce(output, outq, n)
    ensures EachOnce(output, outq + [n], n + 1)
  {
    forall i: nat
      ensures Waiting(outq + [n], i) == Waiting(outq, i) + if i == n then 1 else 0
    {
      WaitingJoins(outq, [n], i);
    }
  }

  lemma RefusedOnce(output: seq<Outcome>, outq: seq<nat>, n: nat)
    requires EachOnce(output, outq, n)
    ensures EachOnce(output + [Outcome(n, false)], outq, n + 1)
  {
    OneMoreLine(output, Outcome(n, false));
  }

  // ----- the books -----

  /** The counters, the lines printed, and the messages accepted and not yet reported on. */
  datatype Book = Book(acked: nat, sent: nat, err: nat, output: seq<Outcome>, outq: seq<nat>)

  /** `dr_cb` */
  function Delivered(b: Book, d: Delivery): Book
    requires d.place < |b.outq|
  {
    Book(if d.ok then b.acked + 1 else b.acked, b.sent, if d.ok then b.err else b.err + 1,
         b.output + [Outcome(b.outq[d.place], d.ok)], Removed(b.outq, d.place))
  }

  /** A poll serves the reports there are messages for. */
  function Polled(b: Book, reports: seq<Delivery>): Book {
    if reports == [] then b
    else
      var b1, d := Polled(b, reports[..|reports| - 1]), reports[|reports| - 1];
      if d.place < |b1.outq| then Delivered(b1, d) else b1
  }

  function PolledAll(b: Book, polls: seq<seq<Delivery>>): Book {
    if polls == [] then b else Polled(PolledAll(b, polls[..|polls| - 1]), polls[|polls| - 1])
  }

  /** The final answer to the produce call of message i. */
  function Offered(b: Book, i: nat, accepted: bool): Book {
    if accepted then b.(sent := b.sent + 1, outq := b.outq + [i])
    else b.(err := b.err + 1, output := b.output + [Outcome(i, false)])
  }

  function Iterated(b: Book, i: nat, turn: Turn): Book {
    Polled(Offered(PolledAll(b, turn.full), i, turn.accepted), turn.after)
  }

  function IteratedAll(b: Book, turns: seq<Turn>): Book {
    if turns == [] then b else Iterated(IteratedAll(b, turns[..|turns| - 1]), |turns| - 1, turns[|turns| - 1])
  }

  /** After n iterations every number below n is on exactly one line of output or in
      the queue, and the counters count lines and accepted messages. */
  ghost predicate Balanced(b: Book, n: nat) {
    && EachOnce(b.output, b.outq, n)
    && b.acked == Acks(b.output)
    && b.acked + b.err == |b.output|
    && b.sent <= n <= b.sent + b.err
  }

  lemma StartsBalanced()
    ensures Balanced(Book(0, 0, 0, [], []), 0)
  {
  }

  /** With an empty queue every message has its line. */
  lemma NothingWaits(b: Book, n: nat)
    requires Balanced(b, n)
    ensures b.acked + b.err + |b.outq| == n
    ensures b.outq == [] ==> forall i: nat :: LinesOf(b.output, i) == if i < n then 1 else 0
  {
    assert b.outq == [] ==> forall i: nat :: Waiting(b.outq, i) == 0;
  }

  lemma DeliveredBalances(b: Book, d: Delivery, n: nat)
    requires Balanced(b, n) && d.place < |b.outq|
    ensures Balanced(Delivered(b, d), n)
  {
    DeliveredOnce(b.output, b.outq, n, d.place, d.ok);
    OneMoreLine(b.output, Outcome(b.outq[d.place], d.ok));
  }

  lemma {:induction false} PolledBalances(b: Book, reports: seq<Delivery>, n: nat)
    requires Balanced(b, n)
    ensures Balanced(Polled(b, reports), n)
  {
    if reports != [] {
      var b1, d := Polled(b, reports[..|reports| - 1]), reports[|reports| - 1];
      PolledBalances(b, reports[..|reports| - 1], n);
      if d.place < |b1.outq| { DeliveredBalances(b1, d, n); }
    }
  }

  lemma {:induction false} PolledAllBalances(b: Book, polls: seq<seq<Delivery>>, n: nat)
    requires Balanced(b, n)
    ensures Balanced(PolledAll(b, polls), n)
  {
    if polls != [] {
      PolledAllBalances(b, polls[..|polls| - 1], n);
      PolledBalances(PolledAll(b, polls[..|polls| - 1]), polls[|polls| - 1], n);
    }
  }

  lemma OfferedBalances(b: Book, i: nat, accepted: bool)
    requires Balanced(b, i)
    ensures Balanced(Offered(b, i, accepted), i + 1)
  {
    AcceptedOnce(b.output, b.outq, i);
    RefusedOnce(b.output, b.outq, i);
    OneMoreLine(b.output, Outcome(i, false));
  }

  /** One iteration, whatever the number of retries. */
  lemma IteratedBalances(b: Book, i: nat, turn: Turn)
    requires Balanced(b, i)
    ensures Balanced(Iterated(b, i, turn), i + 1)
  {
    PolledAllBalances(b, turn.full, i);
    OfferedBalances(PolledAll(b, turn.full), i, turn.accepted);
    PolledBalances(Offered(PolledAll(b, turn.full), i, turn.accepted), turn.after, i + 1);
  }

  lemma {:induction false} RunBalances(b: Book, turns: seq<Turn>)
    requires Balanced(b, 0)
    ensures Balanced(IteratedAll(b, turns), |turns|)
  {
    if turns != [] {
      RunBalances(b, turns[..|turns| - 1]);
      IteratedBalances(IteratedAll(b, turns[..|turns| - 1]), |turns| - 1, turns[|turns| - 1]);
    }
  }

  // ----- every report is served -----

  /** Every report is about a message that is still in the queue when it is its turn. */
  predicate Fits(b: Book, reports: seq<Delivery>) {
    forall i :: 0 <= i < |reports| ==> reports[i].place + i < |b.outq|
  }

  /** A poll turns every such report into one line with its verdict and one count, and takes
      as many messages out of the queue. */
  lemma {:induction false} PollServes(b: Book, reports: seq<Delivery>)
    requires Fits(b, reports)
    ensures var t := Polled(b, reports);
            && |t.output| == |b.output| + |reports| && t.output[..|b.output|] == b.output
            && (forall i :: 0 <= i < |reports| ==> t.output[|b.output| + i].ok == reports[i].ok)
            && |t.outq| == |b.outq| - |reports| && t.sent == b.sent
            && t.acked + t.err == b.acked + b.err + |reports|
  {
    if reports != [] {
      var front, d := reports[..|reports| - 1], reports[|reports| - 1];
      PollServes(b, front);
      assert Polled(b, reports) == Delivered(Polled(b, front), d);
    }
  }

  /** The reports of several polls, in order. */
  function Joined(polls: seq<seq<Delivery>>): seq<Delivery> {
    if polls == [] then [] else Joined(polls[..|polls| - 1]) + polls[|polls| - 1]
  }

  lemma {:induction false} PolledJoins(b: Book, x: seq<Delivery>, y: seq<Delivery>)
    ensures Polled(b, x + y) == Polled(Polled(b, x), y)
  {
    if y == [] {
      assert x + y == x;
    } else {
      PolledJoins(b, x, y[..|y| - 1]);
      assert (x + y)[..|x + y| - 1] == x + y[..|y| - 1];
    }
  }

  /** Several polls serve what one poll with all their reports would. */
  lemma {:induction false} PollsServe(b: Book, polls: seq<seq<Delivery>>)
    ensures PolledAll(b, polls) == Polled(b, Joined(polls))
  {
    if polls != [] {
      PollsServe(b, polls[..|polls| - 1]);
      PolledJoins(b, Joined(polls[..|polls| - 1]), polls[|polls| - 1]);
    }
  }

  /** With nothing in the queue a poll serves nothing. */
  lemma {:induction false} NothingToServe(b: Book, reports: seq<Delivery>)
    requires b.outq == []
    ensures Polled(b, reports) == b
  {
    if reports != [] { NothingToServe(b, reports[..|reports| - 1]); }
  }

  lemma {:induction false} NothingLeft(b: Book, polls: seq<seq<Delivery>>, k: nat)
    requires k <= |polls| && PolledAll(b, polls[..k]).outq == []
    ensures PolledAll(b, polls) == PolledAll(b, polls[..k])
    decreases |polls|
  {
    if k < |polls| {
      var front := polls[..|polls| - 1];
      assert front[..k] == polls[..k];
      NothingLeft(b, front, k);
      NothingToServe(PolledAll(b, front), polls[|polls| - 1]);
    } else {
      assert polls[..k] == polls;
    }
  }

  /** Accepted and refused messages of a run. */
  function AcceptedIn(turns: seq<Turn>): nat {
    if turns == [] then 0 else AcceptedIn(turns[..|turns| - 1]) + if turns[|turns| - 1].accepted then 1 else 0
  }

  lemma {:induction false} PolledSame(b: Book, reports: seq<Delivery>)
    ensures Polled(b, reports).sent == b.sent && b.output <= Polled(b, reports).output
  {
    if reports != [] { PolledSame(b, reports[..|reports| - 1]); }
  }

  lemma {:induction false} PolledAllSame(b: Book, polls: seq<seq<Delivery>>)
    ensures PolledAll(b, polls).sent == b.sent && b.output <= PolledAll(b, polls).output
  {
    if polls != [] {
      PolledAllSame(b, polls[..|polls| - 1]);
      PolledSame(PolledAll(b, polls[..|polls| - 1]), polls[|polls| - 1]);
    }
  }

  /** The reports of all polls of an iteration are served, before and after the message; it
      is sent if the produce call accepted it and has its error line at once otherwise. */
  lemma IteratedSends(b: Book, i: nat, turn: Turn)
    ensures Iterated(b, i, turn) == Polled(Offered(Polled(b, Joined(turn.full)), i, turn.accepted), turn.after)
    ensures var t := Iterated(b, i, turn);
            && t.sent == b.sent + (if turn.accepted then 1 else 0)
            && b.output <= t.output && (!turn.accepted ==> Outcome(i, false) in t.output)
  {
    hide Polled, PolledAll;
    PollsServe(b, turn.full);
    var b1 := PolledAll(b, turn.full);
    var b2 := Offered(b1, i, turn.accepted);
    PolledAllSame(b, turn.full);
    PolledSame(b2, turn.after);
    if !turn.accepted { assert b2.output[|b1.output|] == Outcome(i, false); }
  }

  lemma {:induction false} RunSends(b: Book, turns: seq<Turn>)
    ensures IteratedAll(b, turns).sent == b.sent + AcceptedIn(turns)
  {
    if turns != [] {
      RunSends(b, turns[..|turns| - 1]);
      IteratedSends(IteratedAll(b, turns[..|turns| - 1]), |turns| - 1, turns[|turns| - 1]);
    }
  }

  // ----- the program -----

  class Producer {
    var numAcked: nat
    var numSent: nat
    var numErr: nat
    var output: seq<Outcome>
    var outq: seq<nat>              // messages accepted and not yet reported on

    constructor ()
      ensures View() == Book(0, 0, 0, [], [])
    {
      numAcked, numSent, numErr, output, outq := 0, 0, 0, [], [];
    }

    function View(): Book
      reads this
    {
      Book(numAcked, numSent, numErr, output, outq)
    }

    /** A poll, calling the delivery report callback for each report. */
    method Poll(reports: seq<Delivery>)
      modifies this
      ensures View() == Polled(old(View()), reports)
    {
      for i := 0 to |reports|
        invariant View() == Polled(old(View()), reports[..i])
      {
        assert reports[..i + 1][..i] == reports[..i];
        if reports[i].place < |outq| {
          Deliver(reports[i]);
        }
      }
      assert reports[..|reports|] == reports;
    }

    /** `dr_cb`: the message is out of the queue, has its line, and is counted. */
    method Deliver(d: Delivery)
      requires d.place < |outq|
      modifies this
      ensures View() == Delivered(old(View()), d)
      ensures forall n: nat :: Balanced(old(View()), n) ==> Balanced(View(), n)
    {
      forall n: nat | Balanced(View(), n) { DeliveredBalances(View(), d, n); }
      output := output + [Outcome(outq[d.place], d.ok)];
      outq := Removed(outq, d.place);
      if d.ok {
        numAcked := numAcked + 1;
      } else {
        numErr := numErr + 1;
      }
    }

    /** The queue-full answers of one message, each followed by a poll. */
    method AwaitSpace(full: seq<seq<Delivery>>)
      modifies this
      ensures View() == PolledAll(old(View()), full)
    {
      for k := 0 to |full|
        invariant View() == PolledAll(old(View()), full[..k])
      {
        assert full[..k + 1][..k] == full[..k];
        Poll(full[k]);
      }
      assert full[..|full|] == full;
    }

    /** The final answer to the produce call of message i. */
    method Offer(i: nat, accepted: bool)
      modifies this
      ensures View() == Offered(old(View()), i, accepted)
    {
      if accepted {
        outq := outq + [i];
        numSent := numSent + 1;
      } else {
        output := output + [Outcome(i, false)];
        numErr := numErr + 1;
      }
    }

    /** One iteration of the produce loop: whatever the number of retries, the message
        is accepted once or refused once. */
    method Iterate(i: nat, turn: Turn)
      modifies this
      ensures View() == Iterated(old(View()), i, turn)
      ensures numSent == old(numSent) + (if turn.accepted then 1 else 0)
      ensures !turn.accepted ==> Outcome(i, false) in output
      ensures Balanced(old(View()), i) ==> Balanced(View(), i + 1)
    {
      hide Polled, PolledAll, Balanced;
      IteratedSends(View(), i, turn);
      if Balanced(View(), i) { IteratedBalances(View(), i, turn); }
      AwaitSpace(turn.full);
      Offer(i, turn.accepted);
      Poll(turn.after);
    }

    /** Waiting for the queue to drain: the polls are served until it is empty. */
    method Drain(polls: seq<seq<Delivery>>)
      modifies this
      ensures View() == PolledAll(old(View()), polls)
    {
      hide Polled;
      var k := 0;
      while k < |polls| && |outq| > 0
        invariant 0 <= k <= |polls| && View() == PolledAll(old(View()), polls[..k])
      {
        assert polls[..k + 1][..k] == polls[..k];
        Poll(polls[k]);
        k := k + 1;
      }
      assert k == |polls| ==> polls[..k] == polls;
      if |outq| == 0 { NothingLeft(old(View()), polls, k); }
    }

    /** The number of messages asked for; -1 stands for a million. */
    static function Limit(maxMessages: int): int {
      if maxMessages == -1 then 1000000 else maxMessages
    }

    /** The produce loop, ended by the limit or by a signal after the turns given. */
    method Produce(maxMessages: int, turns: seq<Turn>) returns (n: nat)
      modifies this
      ensures n == if Limit(maxMessages) < 0 then 0 else if |turns| < Limit(maxMessages) then |turns| else Limit(maxMessages)
      ensures View() == IteratedAll(old(View()), turns[..n])
    {
      hide Iterated, Balanced;
      n := 0;
      while n < |turns| && n < Limit(maxMessages)
        invariant n <= |turns| && (n <= Limit(maxMessages) || n == 0) && View() == IteratedAll(old(View()), turns[..n])
      {
        assert turns[..n + 1][..n] == turns[..n];
        Iterate(n, turns[n]);
        n := n + 1;
      }
    }

    /** The produce loop and the loop that waits for the queue to drain. */
    method Send(maxMessages: int, turns: seq<Turn>, polls: seq<seq<Delivery>>) returns (n: nat)
      requires View() == Book(0, 0, 0, [], [])
      modifies this
      ensures n == if Limit(maxMessages) < 0 then 0 else if |turns| < Limit(maxMessages) then |turns| else Limit(maxMessages)
      ensures View() == PolledAll(IteratedAll(old(View()), turns[..n]), polls)
      ensures Balanced(View(), n) && numSent == AcceptedIn(turns[..n])
      ensures numAcked + numErr + |outq| == n
      ensures numAcked + numErr == n <==> outq == []
      ensures outq == [] ==> forall i: nat :: LinesOf(output, i) == if i < n then 1 else 0
    {
      hide Balanced, IteratedAll, PolledAll, AcceptedIn, LinesOf;
      ghost var b := View();
      assert Balanced(b, 0) by { StartsBalanced(); }
      n := Produce(maxMessages, turns);
      RunBalances(b, turns[..n]);
      RunSends(b, turns[..n]);
      PolledAllBalances(View(), polls, n);
      PolledAllSame(View(), polls);
      Drain(polls);
      NothingWaits(View(), n);
    }
  }
}
