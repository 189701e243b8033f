/** The consumer side of examples/kafkatest_verifiable_client.cpp as it is written: the
    counters and the assignment map of `state.consumer`, updated in place. Every method
    is proved to do to the history what the step functions say. */
module VerifiableClient {
  import opened Names
  import opened VerifiableConsumer
  import opened VerifiableConsumerLines
  import Proofs = VerifiableConsumerProofs

  datatype Assignment = Assignment(topic: string, partition: int, consumedMessages: int, minOffset: int, maxOffset: int)

  function NewAssignment(): Assignment {
    Assignment("", -1, 0, -1, 0)
  }

  /** `Assignment::setup`; its assertions are the precondition. */
  function Setup(a: Assignment, topic: string, partition: int): Assignment
    requires topic != ""
    requires a.topic == "" || a.topic == topic
    requires a.partition == -1 || a.partition == partition
  {
    a.(topic := topic, partition := partition)
  }

  /** What the assignment map holds of a known partition. */
  function Summary(h: History, key: string): Assignment
    requires key in Known(h)
  {
    Assignment(Known(h)[key].0, Known(h)[key].1, TakenOf(h, key), FirstSince(h, key), Largest(h, key))
  }

  /** The assignment map is what the history amounts to. */
  ghost predicate Sums(assignments: map<string, Assignment>, h: History) {
    && assignments.Keys == Known(h).Keys
    && (forall key :: key in assignments ==> assignments[key] == Summary(h, key))
    && (forall key :: key in assignments ==> assignments[key].topic != "")
  }

  function Extended(a: Assignment, m: Message): Assignment {
    a.(consumedMessages := a.consumedMessages + 1,
       minOffset := if a.minOffset == -1 then m.offset else a.minOffset,
       maxOffset := if a.maxOffset < m.offset then m.offset else a.maxOffset)
  }

  /** A message taken changes the entry of its own partition only. */
  lemma SummaryAfterTake(h: History, m: Message)
    ensures var t := h + [Took(m)];
            && (forall key :: key in Known(h) && key != Key(m) ==> key in Known(t) && Summary(t, key) == Summary(h, key))
            && Key(m) in Known(t)
            && Summary(t, Key(m)) == Extended(if Key(m) in Known(h) then Summary(h, Key(m)).(topic := m.topic, partition := m.partition)
                                              else Assignment(m.topic, m.partition, 0, -1, 0), m)
  {
    assert Before(h + [Took(m)]) == h;
    Proofs.TakenOfUnknown(h, Key(m));
    Proofs.NothingOfUnknown(h, Key(m));
  }

  /** The entry of the message's partition passes the assertions of `setup`. */
  lemma EntryFits(assignments: map<string, Assignment>, h: History, m: Message)
    requires Sums(assignments, h)
    ensures Key(m) in assignments ==> assignments[Key(m)].topic == m.topic && assignments[Key(m)].partition == m.partition
  {
    Proofs.SetupAgrees(h, m);
  }

  /** Counting a message in its entry keeps the map what the history amounts to. */
  lemma SumsAfterTake(assignments: map<string, Assignment>, h: History, m: Message)
    requires Sums(assignments, h) && m.topic != ""
    ensures var a := if Key(m) in assignments then assignments[Key(m)] else NewAssignment();
            Sums(assignments[Key(m) := Extended(a.(topic := m.topic, partition := m.partition), m)], h + [Took(m)])
  {
    hide Summary, Known, Name, TakenOf, FirstSince, Largest;
    var t := h + [Took(m)];
    SummaryAfterTake(h, m);
    KnownAfterTake(h, m);
    forall key | key in Known(t) && key != Key(m)
      ensures assignments[key] == Summary(t, key)
    {
      assert assignments[key] == Summary(h, key);
    }
  }

  lemma KnownAfterTake(h: History, m: Message)
    ensures Known(h + [Took(m)]) == Known(h)[Key(m) := (m.topic, m.partition)]
  {
    assert Before(h + [Took(m)]) == h;
  }

  /** The messages counted in the entries of some partitions. */
  ghost function ConsumedOf(assignments: map<string, Assignment>, keys: set<string>): int
    requires keys <= assignments.Keys
  {
    if keys == {} then 0
    else
      var key :| key in keys;
      assignments[key].consumedMessages + ConsumedOf(assignments, keys - {key})
  }

  lemma {:induction false} ConsumedIsTaken(h: History, assignments: map<string, Assignment>, keys: set<string>)
    requires keys <= assignments.Keys && forall key :: key in keys ==> assignments[key].consumedMessages == TakenOf(h, key)
    ensures ConsumedOf(assignments, keys) == Proofs.SumOf(h, keys)
    decreases keys
  {
    if keys != {} {
      var key :| key in keys
        && ConsumedOf(assignments, keys) == assignments[key].consumedMessages + ConsumedOf(assignments, keys - {key});
      Proofs.SumSplits(h, keys, key);
      ConsumedIsTaken(h, assignments, keys - {key});
    }
  }

  /** What an input called for stands on standard output, after what was printed before. */
  predicate AnswersAt(output: seq<Line>, c: Config, inputs: seq<Input>, k: nat)
    requires k < |inputs|
  {
    var h := Run(c, inputs[..k]);
    StandsAt(output, |Lines(h)|, Lines(Called(h, c, inputs[k])))
  }

  class Consumer {
    const config: Config
    var consumedMessages: int
    var consumedMessagesLastReported: int
    var consumedMessagesAtLastCommit: int
    var assignments: map<string, Assignment>
    var run: bool
    var output: seq<Line>
    ghost var history: History

    constructor (config: Config)
      ensures this.config == config && Valid() && history == []
    {
      this.config := config;
      consumedMessages, consumedMessagesLastReported, consumedMessagesAtLastCommit := 0, 0, 0;
      assignments, run, output, history := map[], true, [], [];
    }

    ghost predicate Valid()
      reads this
    {
      && consumedMessages == Taken(history)
      && consumedMessagesLastReported == LastTotal(history)
      && consumedMessagesAtLastCommit == AtLastCommit(history)
      && run == Running(history)
      && output == Lines(history)
      && Sums(assignments, history)
    }

    /** A line that is no report goes out. */
    method Print(line: Line)
      requires Valid() && !line.RecordsConsumed?
      modifies this`output, this`history
      ensures Valid() && history == old(history) + [Printed(line)] && output == old(output) + [line]
    {
      output := output + [line];
      history := history + [Printed(line)];
      assert Before(history) == old(history);
    }

    /** The loop over the assignment map: what it prints, and the new minimum offsets. */
    method CollectRanges() returns (ranges: map<string, Range>)
      requires Valid()
      modifies this`assignments
      ensures ranges == Ranges(history)
      ensures assignments.Keys == old(assignments.Keys)
      ensures forall key :: key in assignments ==> assignments[key] == old(assignments[key]).(minOffset := -1)
    {
      hide Taken, LastTotal, AtLastCommit, Lines, FirstSince, Largest, TakenOf, Known;
      ranges := map[];
      var rest := assignments.Keys;
      while rest != {}
        invariant rest <= old(assignments.Keys) && assignments.Keys == old(assignments.Keys)
        invariant ranges.Keys == old(assignments.Keys) - rest
        invariant forall key :: key in ranges ==> ranges[key] == Ranges(history)[key]
        invariant forall key :: key in assignments ==>
                    assignments[key] == if key in rest then old(assignments[key]) else old(assignments[key]).(minOffset := -1)
      {
        var key :| key in rest;
        var a := assignments[key];
        assert a.topic != "";
        ranges := ranges[key := Range(a.topic, a.partition, a.minOffset, a.maxOffset)];
        assignments := assignments[key := a.(minOffset := -1)];
        rest := rest - {key};
      }
    }

    /** `report_records_consumed` */
    method ReportRecordsConsumed(immediate: bool)
      requires Valid()
      modifies this`output, this`history, this`assignments, this`consumedMessagesLastReported
      ensures Valid() && history == Report(old(history), immediate)
    {
      if consumedMessages <= consumedMessagesLastReported + (if immediate then 0 else 999) {
        return;
      }
      var ranges := CollectRanges();
      var line := RecordsConsumed(consumedMessages, consumedMessages - consumedMessagesLastReported, ranges);
      output := output + [line];
      consumedMessagesLastReported := consumedMessages;
      history := history + [Printed(line)];
      assert Before(history) == old(history);
    }

    /** `offset_commit_cb`; the program asserts that there are offsets. */
    method OnOffsetsCommitted(r: CommitResult)
      requires Valid() && (r.Result? ==> r.offsets != [])
      modifies this`output, this`history, this`assignments, this`consumedMessagesLastReported
      ensures Valid() && history == OnCommitted(old(history), r)
      ensures r.Result? ==> output != [] && output[|output| - 1] == OffsetsCommitted(r.success, r.offsets)
    {
      if r.NoOffset? {
        return;
      }
      ReportRecordsConsumed(true);
      Print(OffsetsCommitted(r.success, r.offsets));
    }

    /** `do_commit` */
    method DoCommit(immediate: bool, r: CommitResult)
      requires Valid() && (r.Result? ==> r.offsets != [])
      modifies this
      ensures Valid() && history == Commit(old(history), config, immediate, r)
      ensures immediate ==> consumedMessagesAtLastCommit == consumedMessages
      ensures immediate && r.Result? ==> output != [] && output[|output| - 1] == OffsetsCommitted(r.success, r.offsets)
    {
      hide Taken, LastTotal, AtLastCommit, Lines, Sums, Report;
      if !immediate && (config.useAutoCommit || consumedMessagesAtLastCommit + 1000 > consumedMessages) {
        return;
      }
      if consumedMessagesLastReported < consumedMessages {
        ReportRecordsConsumed(true);
      }
      OnOffsetsCommitted(r);
      RememberCommit();
    }

    method RememberCommit()
      requires Valid()
      modifies this`consumedMessagesAtLastCommit, this`history
      ensures Valid() && history == old(history) + [CommitDone] && consumedMessagesAtLastCommit == consumedMessages
    {
      consumedMessagesAtLastCommit := consumedMessages;
      history := history + [CommitDone];
      assert Before(history) == old(history);
    }

    /** Counting a message under its partition; the assertions of `setup` hold. */
    method Count(m: Message)
      requires Valid() && m.topic != ""
      modifies this`assignments, this`consumedMessages, this`history
      ensures Valid() && history == old(history) + [Took(m)]
    {
      hide Sums;
      var key := Name(m.topic, m.partition);
      EntryFits(assignments, history, m);
      var a := Setup(if key in assignments then assignments[key] else NewAssignment(), m.topic, m.partition);
      var b := CountIn(a, m);
      SumsAfterTake(assignments, history, m);
      assignments := assignments[key := b];
      consumedMessages := consumedMessages + 1;
      history := history + [Took(m)];
      assert Before(history) == old(history);
    }

    /** The entry of a partition after one more of its messages. */
    method CountIn(a: Assignment, m: Message) returns (b: Assignment)
      ensures b == Extended(a, m)
    {
      b := a.(consumedMessages := a.consumedMessages + 1);
      if b.minOffset == -1 {
        b := b.(minOffset := m.offset);
      }
      if b.maxOffset < m.offset {
        b := b.(maxOffset := m.offset);
      }
    }

    /** A message past the limit is thrown away. */
    ghost method Drop(m: Message)
      requires Valid()
      modifies this`history
      ensures Valid() && history == old(history) + [Dropped(m)]
    {
      history := history + [Dropped(m)];
      assert Before(history) == old(history);
    }

    method Stop()
      requires Valid()
      modifies this`run, this`history
      ensures Valid() && history == old(history) + [Stopped]
    {
      run := false;
      history := history + [Stopped];
      assert Before(history) == old(history);
    }

    /** `msg_consume` on a message. */
    method OnMessage(m: Message, r: CommitResult)
      requires Valid() && m.topic != "" && (r.Result? ==> r.offsets != [])
      modifies this
      ensures Valid() && history == Receive(old(history), config, m, r)
    {
      if config.maxMessages >= 0 && consumedMessages >= config.maxMessages {
        Drop(m);
        return;
      }
      Count(m);
      ReportRecordsConsumed(false);
      DoCommit(false, r);
    }

    /** `rebalance_cb` */
    method OnRebalance(assign: bool, partitions: seq<(string, int)>, r: CommitResult)
      requires Valid() && (r.Result? ==> r.offsets != [])
      modifies this
      ensures Valid()
      ensures history == Step(old(history), config, if assign then Assigning(partitions) else Revoking(partitions, r))
      ensures output != [] && output[|output| - 1] == if assign then PartitionsAssigned(partitions) else PartitionsRevoked(partitions)
      ensures !assign ==> consumedMessagesAtLastCommit == consumedMessages
      ensures !assign && r.Result? ==> |output| > 1 && output[|output| - 2] == OffsetsCommitted(r.success, r.offsets)
    {
      hide Report, Commit;
      ReportRecordsConsumed(true);
      if !assign {
        DoCommit(true, r);
      }
      Print(if assign then PartitionsAssigned(partitions) else PartitionsRevoked(partitions));
    }

    /** What the library makes the program do. */
    method Handle(i: Input)
      requires Valid() && Proper(i)
      modifies this
      ensures Valid() && history == Step(old(history), config, i)
    {
      match i
      case TimedOut(r) =>
        ReportRecordsConsumed(true);
        DoCommit(true, r);
      case Received(m, r) => OnMessage(m, r);
      case PartitionEof => if config.exitEof { Stop(); }
      case CoordinatorNotAvailable =>
      case ConsumeFailed => Stop();
      case AutoCommitted(r) => OnOffsetsCommitted(r);
      case Assigning(ps) => OnRebalance(true, ps, NoOffset);
      case Revoking(ps, r) => OnRebalance(false, ps, r);
      case FinalCommit(r) => DoCommit(true, r);
    }

    /** The program driven by any inputs. */
    method Drive(inputs: seq<Input>)
      requires Valid() && history == [] && forall k :: 0 <= k < |inputs| ==> Proper(inputs[k])
      modifies this
      ensures Valid() && history == Run(config, inputs)
    {
      hide Step, Sums;
      for k := 0 to |inputs|
        invariant Valid() && history == Run(config, inputs[..k])
      {
        Proofs.OneMoreInput(config, inputs[..k], inputs[k]);
        assert inputs[..k + 1] == inputs[..k] + [inputs[k]];
        Handle(inputs[k]);
      }
      assert inputs[..|inputs|] == inputs;
    }

    /** A whole run: what is on standard output, and in the counters, is what the
        history of the run says. */
    method HandleAll(inputs: seq<Input>)
      requires Valid() && history == [] && forall k :: 0 <= k < |inputs| ==> Proper(inputs[k])
      modifies this
      ensures Valid() && history == Run(config, inputs)
      ensures Proofs.Accounted(history, config)
      ensures consumedMessagesAtLastCommit <= consumedMessagesLastReported <= consumedMessages
      ensures ConsumedOf(assignments, assignments.Keys) == consumedMessages
      ensures Proofs.HonestRun(config, inputs) && Proofs.NeverOverruns(config, inputs) ==> Proofs.Backed(history)
      ensures forall k :: 0 <= k < |inputs| ==> AnswersAt(output, config, inputs, k)
    {
      hide Run;
      Drive(inputs);
      forall k | 0 <= k < |inputs|
        ensures AnswersAt(output, config, inputs, k)
      {
        RunPrints(config, inputs, k);
      }
      Proofs.EveryRunAccounts(config, inputs);
      Proofs.Conservation(history);
      ConsumedIsTaken(history, assignments, assignments.Keys);
      if Proofs.HonestRun(config, inputs) && Proofs.NeverOverruns(config, inputs) {
        Proofs.RunsAreBacked(config, inputs);
      }
    }
  }

  predicate ProperResult(r: CommitResult) {
    r.Result? ==> r.offsets != []
  }

  /** Topics have names, and a commit that is reported has offsets. */
  predicate Proper(i: Input) {
    match i
    case TimedOut(r) => ProperResult(r)
    case Received(m, r) => m.topic != "" && ProperResult(r)
    case AutoCommitted(r) => ProperResult(r)
    case Revoking(_, r) => ProperResult(r)
    case FinalCommit(r) => ProperResult(r)
    case _ => true
  }
}
