/** What an observer of the verifiable consumer may rely on, for every run. */
module VerifiableConsumerProofs {
  import opened Names
  import opened VerifiableConsumer

  // ----- report before commit -----

  /** Everything taken has been reported. */
  predicate AllReported(h: History) {
    Reported(h) == Taken(h)
  }

  /** Every committed offset was announced after a report of all messages taken. */
  predicate ReportsFirst(h: History) {
    h == [] || (ReportsFirst(Before(h)) && (Last(h).Printed? && Last(h).line.OffsetsCommitted? ==> AllReported(Before(h))))
  }

  /** The same, event by event. */
  lemma {:induction false} ReportsFirstAt(h: History, k: nat)
    requires ReportsFirst(h) && k < |h| && h[k].Printed? && h[k].line.OffsetsCommitted?
    ensures Reported(h[..k]) == Taken(h[..k])
  {
    if k == |h| - 1 {
      assert h[..k] == Before(h);
    } else {
      ReportsFirstAt(Before(h), k);
      assert Before(h)[..k] == h[..k];
    }
  }

  predicate Counters(h: History) {
    && Reported(h) == LastTotal(h)
    && AtLastCommit(h) <= LastTotal(h) <= Taken(h)
    && ReportsFirst(h)
  }

  /** A mark that neither is a message nor announces a commit or a count. */
  predicate Neutral(mark: Mark) {
    !mark.Took? && !mark.CommitDone? && (mark.Printed? ==> !mark.line.RecordsConsumed? && !mark.line.OffsetsCommitted?)
  }

  lemma AppendNeutral(h: History, mark: Mark)
    requires Neutral(mark)
    ensures var t := h + [mark];
            Taken(t) == Taken(h) && LastTotal(t) == LastTotal(h) && AtLastCommit(t) == AtLastCommit(h)
            && (Counters(h) ==> Counters(t))
  {
    assert Before(h + [mark]) == h;
  }

  lemma ReportCounts(h: History, immediate: bool)
    requires Counters(h)
    ensures var t := Report(h, immediate);
            && Counters(t) && Taken(t) == Taken(h) && AtLastCommit(t) == AtLastCommit(h)
            && (immediate ==> LastTotal(t) == Taken(t))
            && Taken(t) - LastTotal(t) <= 999
            && LastTotal(h) <= LastTotal(t)
  {
    var t := Report(h, immediate);
    if t != h {
      assert Before(t) == h;
    }
  }

  lemma TakeCounts(h: History, m: Message)
    requires Counters(h)
    ensures var t := h + [Took(m)];
            Counters(t) && Taken(t) == Taken(h) + 1 && LastTotal(t) == LastTotal(h) && AtLastCommit(t) == AtLastCommit(h)
  {
    assert Before(h + [Took(m)]) == h;
  }

  lemma CallbackCounts(h: History, r: CommitResult)
    requires Counters(h)
    ensures var t := OnCommitted(h, r);
            && Counters(t) && Taken(t) == Taken(h) && AtLastCommit(t) == AtLastCommit(h)
            && LastTotal(h) <= LastTotal(t) <= Taken(t)
  {
    if r.Result? {
      ReportCounts(h, true);
      assert Before(OnCommitted(h, r)) == Report(h, true);
    }
  }

  lemma CommitCounts(h: History, c: Config, immediate: bool, r: CommitResult)
    requires Counters(h)
    ensures var t := Commit(h, c, immediate, r);
            && Counters(t) && Taken(t) == Taken(h) && LastTotal(h) <= LastTotal(t)
            && (immediate || !c.useAutoCommit ==> Taken(t) - AtLastCommit(t) < 1000)
  {
    var t := Commit(h, c, immediate, r);
    if t != h {
      ReportCounts(h, true);
      var h1 := if LastTotal(h) < Taken(h) then Report(h, true) else h;
      CallbackCounts(h1, r);
      assert Before(t) == OnCommitted(h1, r);
    }
  }

  /** What holds of the history between any two inputs. */
  predicate Accounted(h: History, c: Config) {
    && Counters(h)
    && Taken(h) - LastTotal(h) < 1000
    && (!c.useAutoCommit ==> Taken(h) - AtLastCommit(h) < 1000)
    && (c.maxMessages >= 0 ==> Taken(h) <= c.maxMessages)
  }

  lemma StepAccounts(h: History, c: Config, i: Input)
    requires Accounted(h, c)
    ensures Accounted(Step(h, c, i), c)
  {
    hide Report, Commit, OnCommitted, Taken, Reported, LastTotal, AtLastCommit, ReportsFirst;
    match i
    case TimedOut(r) =>
      ReportCounts(h, true);
      CommitCounts(Report(h, true), c, true, r);
    case Received(m, r) =>
      AppendNeutral(h, Dropped(m));
      TakeCounts(h, m);
      ReportCounts(h + [Took(m)], false);
      CommitCounts(Report(h + [Took(m)], false), c, false, r);
    case PartitionEof => AppendNeutral(h, Stopped);
    case CoordinatorNotAvailable =>
    case ConsumeFailed => AppendNeutral(h, Stopped);
    case AutoCommitted(r) => CallbackCounts(h, r);
    case Assigning(ps) =>
      ReportCounts(h, true);
      AppendNeutral(Report(h, true), Printed(PartitionsAssigned(ps)));
    case Revoking(ps, r) =>
      ReportCounts(h, true);
      CommitCounts(Report(h, true), c, true, r);
      AppendNeutral(Commit(Report(h, true), c, true, r), Printed(PartitionsRevoked(ps)));
    case FinalCommit(r) => CommitCounts(h, c, true, r);
  }

  /** In every run: nothing is committed that was not reported first, fewer than 1000
      messages are unreported, fewer than 1000 uncommitted without auto commit, and the
      limit is kept. A non-negative limit is needed for no more than the last of these. */
  lemma {:induction false} EveryRunAccounts(c: Config, inputs: seq<Input>)
    ensures Accounted(Run(c, inputs), c)
  {
    if inputs != [] {
      var n := |inputs| - 1;
      EveryRunAccounts(c, inputs[..n]);
      StepAccounts(Run(c, inputs[..n]), c, inputs[n]);
    }
  }

  // ----- conservation -----

  ghost function SumOf(h: History, keys: set<string>): nat {
    if keys == {} then 0 else var key :| key in keys; TakenOf(h, key) + SumOf(h, keys - {key})
  }

  lemma {:induction false} SumSplits(h: History, keys: set<string>, key: string)
    requires key in keys
    ensures SumOf(h, keys) == TakenOf(h, key) + SumOf(h, keys - {key})
    decreases keys
  {
    var k :| k in keys && SumOf(h, keys) == TakenOf(h, k) + SumOf(h, keys - {k});
    if k != key {
      SumSplits(h, keys - {k}, key);
      SumSplits(h, keys - {key}, k);
      assert keys - {k} - {key} == keys - {key} - {k};
    }
  }

  /** One more mark adds what it takes from the partitions summed over. */
  lemma {:induction false} SumGrows(h: History, mark: Mark, keys: set<string>)
    ensures SumOf(h + [mark], keys) == SumOf(h, keys) + if mark.Took? && Key(mark.m) in keys then 1 else 0
    decreases keys
  {
    assert Before(h + [mark]) == h;
    if keys != {} {
      var k :| k in keys && SumOf(h, keys) == TakenOf(h, k) + SumOf(h, keys - {k});
      SumGrows(h, mark, keys - {k});
      SumSplits(h + [mark], keys, k);
    }
  }

  lemma {:induction false} TakenOfUnknown(h: History, key: string)
    ensures key in Known(h) <==> TakenOf(h, key) > 0
  {
    if h != [] {
      TakenOfUnknown(Before(h), key);
    }
  }

  lemma {:induction false} NothingOfUnknown(h: History, key: string)
    ensures key !in Known(h) ==> FirstSince(h, key) == -1 && Largest(h, key) == 0
  {
    if h != [] {
      NothingOfUnknown(Before(h), key);
    }
  }

  /** The messages taken of all known partitions are all the messages taken. */
  lemma {:induction false} Conservation(h: History)
    ensures SumOf(h, Known(h).Keys) == Taken(h)
  {
    if h != [] {
      var b, mark := Before(h), Last(h);
      assert h == b + [mark];
      Conservation(b);
      SumGrows(b, mark, Known(h).Keys);
      if mark.Took? {
        var key := Key(mark.m);
        if key in Known(b) {
          assert Known(h).Keys == Known(b).Keys;
        } else {
          SumSplits(b, Known(h).Keys, key);
          TakenOfUnknown(b, key);
          assert Known(h).Keys - {key} == Known(b).Keys;
        }
      }
    }
  }

  /** Two messages under one key are of the same topic and partition: the assertions
      of `Assignment::setup` hold in every history. */
  lemma {:induction false} SetupAgrees(h: History, m: Message)
    ensures Key(m) in Known(h) ==> Known(h)[Key(m)] == (m.topic, m.partition)
  {
    if h != [] {
      SetupAgrees(Before(h), m);
      if Last(h).Took? && Key(Last(h).m) == Key(m) {
        NameInjective(Last(h).m.topic, Last(h).m.partition, m.topic, m.partition);
      }
    }
  }

  // ----- committed offsets are reported offsets -----

  /** The largest offset of a partition in the latest report. */
  function ReportedMax(h: History, key: string): int {
    if h == [] then -1
    else if Last(h).Printed? && Last(h).line.RecordsConsumed? then
      if key in Last(h).line.ranges then Last(h).line.ranges[key].maxOffset else -1
    else ReportedMax(Before(h), key)
  }

  function OffsetKey(o: Offset): string {
    Name(o.topic, o.partition)
  }

  /** The latest report shows that the messages below the offset were consumed. */
  predicate Shown(h: History, o: Offset) {
    o.offset <= 0 || o.offset <= ReportedMax(h, OffsetKey(o)) + 1
  }

  /** No commit was announced that reaches past what was reported before it. */
  predicate Backed(h: History) {
    h == [] || (Backed(Before(h)) && (Last(h).Printed? && Last(h).line.OffsetsCommitted? ==>
                                        forall o :: o in Last(h).line.offsets ==> Shown(Before(h), o)))
  }

  /** If all is reported, the latest report shows the largest offsets. */
  ghost predicate UpToDate(h: History) {
    Taken(h) == LastTotal(h) ==> forall key :: ReportedMax(h, key) == if key in Known(h) then Largest(h, key) else -1
  }

  /** The library has stored no offset past the messages taken. */
  ghost predicate Covered(h: History) {
    forall key :: CoveredAt(h, key)
  }

  /** A commit commits no more than what was stored at some time before. */
  predicate Honest(h: History, r: CommitResult) {
    r.Result? ==> forall o :: o in r.offsets ==> o.offset < 0 || o.offset <= Stored(h, OffsetKey(o))
  }

  predicate HonestInput(h: History, c: Config, i: Input) {
    match i
    case TimedOut(r) => Honest(h, r)
    case Received(m, r) => Honest(h + [Took(m)], r)
    case AutoCommitted(r) => Honest(h, r)
    case Revoking(_, r) => Honest(h, r)
    case FinalCommit(r) => Honest(h, r)
    case _ => true
  }

  /** A message past the limit, with an offset not seen of its partition. */
  predicate Overrun(h: History, c: Config, i: Input) {
    i.Received? && AtLimit(h, c) && (Key(i.m) in Known(h) ==> i.m.offset > Largest(h, Key(i.m)))
  }

  // ----- what does not depend on the library -----

  /** A mark that is no message. */
  predicate Idle(mark: Mark) {
    !mark.Took? && !mark.Dropped?
  }

  ghost predicate SameMessages(h: History, t: History) {
    && Taken(t) == Taken(h) && Known(t) == Known(h)
    && (forall key :: Largest(t, key) == Largest(h, key))
    && (forall key :: Stored(t, key) == Stored(h, key))
  }

  lemma IdleKeepsMessages(h: History, mark: Mark)
    requires Idle(mark)
    ensures SameMessages(h, h + [mark])
  {
    assert Before(h + [mark]) == h;
  }

  /** Counters in order and the latest report up to date: true of every history. */
  ghost predicate Steady(h: History) {
    Counters(h) && UpToDate(h)
  }

  lemma ReportIsSteady(h: History, immediate: bool)
    requires Steady(h)
    ensures var t := Report(h, immediate); Steady(t) && SameMessages(h, t) && (Backed(h) ==> Backed(t))
  {
    ReportCounts(h, immediate);
    var t := Report(h, immediate);
    if t != h {
      assert Before(t) == h;
      IdleKeepsMessages(h, Last(t));
    }
  }

  /** Marks that say nothing of reports or commits. */
  lemma NeutralIsSteady(h: History, mark: Mark)
    requires Steady(h) && Neutral(mark)
    ensures Steady(h + [mark]) && (Backed(h) ==> Backed(h + [mark]))
  {
    AppendNeutral(h, mark);
    assert Before(h + [mark]) == h;
  }

  lemma TakeIsSteady(h: History, m: Message)
    requires Steady(h)
    ensures Steady(h + [Took(m)]) && (Backed(h) ==> Backed(h + [Took(m)]))
  {
    TakeCounts(h, m);
    assert Before(h + [Took(m)]) == h;
  }

  lemma CallbackIsSteady(h: History, r: CommitResult)
    requires Steady(h)
    ensures var t := OnCommitted(h, r); Steady(t) && SameMessages(h, t)
  {
    CallbackCounts(h, r);
    if r.Result? {
      var h1, mark := Report(h, true), Printed(OffsetsCommitted(r.success, r.offsets));
      ReportIsSteady(h, true);
      assert Before(h1 + [mark]) == h1;
      IdleKeepsMessages(h1, mark);
    }
  }

  lemma CommitIsSteady(h: History, c: Config, immediate: bool, r: CommitResult)
    requires Steady(h)
    ensures var t := Commit(h, c, immediate, r); Steady(t) && SameMessages(h, t)
  {
    var t := Commit(h, c, immediate, r);
    CommitCounts(h, c, immediate, r);
    if t != h {
      var h1 := if LastTotal(h) < Taken(h) then Report(h, true) else h;
      ReportIsSteady(h, true);
      CallbackIsSteady(h1, r);
      assert Before(t) == OnCommitted(h1, r);
      IdleKeepsMessages(OnCommitted(h1, r), CommitDone);
    }
  }

  /** What a step is, as far as messages go: it takes one, drops one, or does neither. */
  function Handed(h: History, c: Config, i: Input): History {
    if !i.Received? then h else h + [if AtLimit(h, c) then Dropped(i.m) else Took(i.m)]
  }

  lemma StepIsSteady(h: History, c: Config, i: Input)
    requires Steady(h)
    ensures Steady(Step(h, c, i)) && SameMessages(Handed(h, c, i), Step(h, c, i))
  {
    hide Report, Commit, OnCommitted, Steady;
    match i
    case TimedOut(r) =>
      ReportIsSteady(h, true);
      CommitIsSteady(Report(h, true), c, true, r);
    case Received(m, r) =>
      if AtLimit(h, c) {
        NeutralIsSteady(h, Dropped(m));
      } else {
        TakeIsSteady(h, m);
        ReportIsSteady(h + [Took(m)], false);
        CommitIsSteady(Report(h + [Took(m)], false), c, false, r);
      }
    case PartitionEof =>
      NeutralIsSteady(h, Stopped);
      IdleKeepsMessages(h, Stopped);
    case CoordinatorNotAvailable =>
    case ConsumeFailed =>
      NeutralIsSteady(h, Stopped);
      IdleKeepsMessages(h, Stopped);
    case AutoCommitted(r) => CallbackIsSteady(h, r);
    case Assigning(ps) =>
      ReportIsSteady(h, true);
      AnnounceIsSteady(Report(h, true), PartitionsAssigned(ps));
    case Revoking(ps, r) =>
      ReportIsSteady(h, true);
      CommitIsSteady(Report(h, true), c, true, r);
      AnnounceIsSteady(Commit(Report(h, true), c, true, r), PartitionsRevoked(ps));
    case FinalCommit(r) => CommitIsSteady(h, c, true, r);
  }

  lemma AnnounceIsSteady(h: History, line: Line)
    requires Steady(h) && (line.PartitionsAssigned? || line.PartitionsRevoked?)
    ensures var t := h + [Printed(line)]; Steady(t) && SameMessages(h, t) && (Backed(h) ==> Backed(t))
  {
    NeutralIsSteady(h, Printed(line));
    IdleKeepsMessages(h, Printed(line));
  }

  // ----- what is stored stays covered -----

  ghost predicate CoveredAt(h: History, key: string) {
    Stored(h, key) <= if key in Known(h) then Largest(h, key) + 1 else -1
  }

  lemma SameMessagesCovered(h: History, t: History)
    requires SameMessages(h, t)
    ensures Covered(t) <==> Covered(h)
  {
    assert forall key :: CoveredAt(t, key) <==> CoveredAt(h, key);
  }

  lemma TakeCovers(h: History, m: Message)
    requires Covered(h)
    ensures Covered(h + [Took(m)])
  {
    var t := h + [Took(m)];
    assert Before(t) == h;
    forall key
      ensures CoveredAt(t, key)
    {
      assert CoveredAt(h, key);
    }
  }

  lemma DropCoversIff(h: History, c: Config, m: Message, r: CommitResult)
    requires Covered(h) && AtLimit(h, c)
    ensures Covered(h + [Dropped(m)]) <==> !Overrun(h, c, Received(m, r))
  {
    var t := h + [Dropped(m)];
    assert Before(t) == h;
    assert forall key :: key != Key(m) ==> (CoveredAt(t, key) <==> CoveredAt(h, key));
    assert CoveredAt(h, Key(m));
    assert CoveredAt(t, Key(m)) <==> !Overrun(h, c, Received(m, r));
  }

  /** A message dropped covers nothing that was not covered. */
  lemma DropUncovers(h: History, m: Message)
    requires !Covered(h)
    ensures !Covered(h + [Dropped(m)])
  {
    var key :| !CoveredAt(h, key);
    assert Before(h + [Dropped(m)]) == h;
    assert !CoveredAt(h + [Dropped(m)], key);
  }

  /** One input: what is stored stays covered exactly if the input is no message past the
      limit with a new offset, and once the limit was overrun it stays so. */
  lemma StepCovers(h: History, c: Config, i: Input)
    requires Steady(h) && (Covered(h) || AtLimit(h, c))
    ensures var t := Step(h, c, i);
            && (Covered(t) <==> Covered(h) && !Overrun(h, c, i))
            && (Covered(t) || AtLimit(t, c))
  {
    StepIsSteady(h, c, i);
    SameMessagesCovered(Handed(h, c, i), Step(h, c, i));
    if i.Received? {
      assert Before(Handed(h, c, i)) == h;
      if !AtLimit(h, c) {
        TakeCovers(h, i.m);
      } else if Covered(h) {
        DropCoversIff(h, c, i.m, i.r);
      } else {
        DropUncovers(h, i.m);
      }
    }
  }

  // ----- commits are backed -----

  /** When all is reported, the offsets stored are shown if they are covered. */
  lemma StoredIsShown(h: History, o: Offset)
    requires Steady(h) && Taken(h) == LastTotal(h) && Covered(h) && o.offset <= Stored(h, OffsetKey(o))
    ensures Shown(h, o)
  {
    assert CoveredAt(h, OffsetKey(o));
  }

  lemma CallbackIsBacked(h: History, r: CommitResult)
    requires Steady(h) && Backed(h) && Covered(h) && Honest(h, r)
    ensures Backed(OnCommitted(h, r))
  {
    if r.Result? {
      var h1 := Report(h, true);
      ReportIsSteady(h, true);
      ReportCounts(h, true);
      SameMessagesCovered(h, h1);
      forall o | o in r.offsets
        ensures Shown(h1, o)
      {
        if o.offset > 0 { StoredIsShown(h1, o); }
      }
      assert Before(OnCommitted(h, r)) == h1;
    }
  }

  lemma CommitIsBacked(h: History, c: Config, immediate: bool, r: CommitResult)
    requires Steady(h) && Backed(h) && Covered(h) && Honest(h, r)
    ensures Backed(Commit(h, c, immediate, r))
  {
    var t := Commit(h, c, immediate, r);
    if t != h {
      var h1 := if LastTotal(h) < Taken(h) then Report(h, true) else h;
      ReportIsSteady(h, true);
      SameMessagesCovered(h, h1);
      CallbackIsBacked(h1, r);
      assert Before(t) == OnCommitted(h1, r);
    }
  }

  lemma ReceiveIsBacked(h: History, c: Config, m: Message, r: CommitResult)
    requires Steady(h) && Backed(h) && Covered(h) && Honest(h + [Took(m)], r)
    ensures Backed(Receive(h, c, m, r))
  {
    if AtLimit(h, c) {
      NeutralIsSteady(h, Dropped(m));
    } else {
      var h1 := h + [Took(m)];
      TakeIsSteady(h, m);
      TakeCovers(h, m);
      ReportIsSteady(h1, false);
      SameMessagesCovered(h1, Report(h1, false));
      CommitIsBacked(Report(h1, false), c, false, r);
    }
  }

  /** One input: no commit it announces reaches past what was reported before. */
  lemma StepIsBacked(h: History, c: Config, i: Input)
    requires Steady(h) && Backed(h) && Covered(h) && HonestInput(h, c, i)
    ensures Backed(Step(h, c, i))
  {
    hide Report, Commit, OnCommitted, Steady, Backed;
    ReportIsSteady(h, true);
    SameMessagesCovered(h, Report(h, true));
    match i
    case TimedOut(r) => CommitIsBacked(Report(h, true), c, true, r);
    case Received(m, r) => ReceiveIsBacked(h, c, m, r);
    case PartitionEof => NeutralIsSteady(h, Stopped);
    case CoordinatorNotAvailable =>
    case ConsumeFailed => NeutralIsSteady(h, Stopped);
    case AutoCommitted(r) => CallbackIsBacked(h, r);
    case Assigning(ps) => AnnounceIsSteady(Report(h, true), PartitionsAssigned(ps));
    case Revoking(ps, r) =>
      CommitIsBacked(Report(h, true), c, true, r);
      CommitIsSteady(Report(h, true), c, true, r);
      AnnounceIsSteady(Commit(Report(h, true), c, true, r), PartitionsRevoked(ps));
    case FinalCommit(r) => CommitIsBacked(h, c, true, r);
  }

  // ----- every run -----

  /** Every commit of the run is answered honestly. */
  predicate HonestRun(c: Config, inputs: seq<Input>) {
    inputs == [] ||
    (var n := |inputs| - 1; HonestRun(c, inputs[..n]) && HonestInput(Run(c, inputs[..n]), c, inputs[n]))
  }

  predicate NeverOverruns(c: Config, inputs: seq<Input>) {
    inputs == [] ||
    (var n := |inputs| - 1; NeverOverruns(c, inputs[..n]) && !Overrun(Run(c, inputs[..n]), c, inputs[n]))
  }

  /** In every run what is stored is covered exactly if no message past the limit had a
      new offset. */
  lemma {:induction false} CoveredIffNeverOverruns(c: Config, inputs: seq<Input>)
    ensures var h := Run(c, inputs);
            Steady(h) && (Covered(h) <==> NeverOverruns(c, inputs)) && (Covered(h) || AtLimit(h, c))
  {
    if inputs != [] {
      var n := |inputs| - 1;
      CoveredIffNeverOverruns(c, inputs[..n]);
      StepIsSteady(Run(c, inputs[..n]), c, inputs[n]);
      StepCovers(Run(c, inputs[..n]), c, inputs[n]);
    }
  }

  lemma {:induction false} RunsAreBacked(c: Config, inputs: seq<Input>)
    requires HonestRun(c, inputs) && NeverOverruns(c, inputs)
    ensures Backed(Run(c, inputs))
  {
    if inputs != [] {
      var n := |inputs| - 1;
      RunsAreBacked(c, inputs[..n]);
      CoveredIffNeverOverruns(c, inputs[..n]);
      StepIsBacked(Run(c, inputs[..n]), c, inputs[n]);
    }
  }

  lemma {:induction false} UnlimitedNeverOverruns(c: Config, inputs: seq<Input>)
    requires c.maxMessages < 0
    ensures NeverOverruns(c, inputs)
  {
    if inputs != [] {
      UnlimitedNeverOverruns(c, inputs[..|inputs| - 1]);
    }
  }

  /** Without a limit no committed offset ever reaches past the reported ones. */
  lemma UnlimitedRunsAreBacked(c: Config, inputs: seq<Input>)
    requires c.maxMessages < 0 && HonestRun(c, inputs)
    ensures NeverOverruns(c, inputs) && Backed(Run(c, inputs))
  {
    UnlimitedNeverOverruns(c, inputs);
    RunsAreBacked(c, inputs);
  }

  /** A commit of an offset stored past what was taken announces an offset nobody was
      told of. */
  lemma UncoveredExposes(h: History, c: Config, o: Offset)
    requires Steady(h) && o.offset > (if OffsetKey(o) in Known(h) then Largest(h, OffsetKey(o)) + 1 else 0)
    ensures !Backed(Step(h, c, TimedOut(Result(true, [o]))))
  {
    var answer := Result(true, [o]);
    var h1 := Report(h, true);
    ReportCounts(h, true);
    ReportIsSteady(h, true);
    assert Report(h1, true) == h1;
    var h2 := OnCommitted(h1, answer);
    assert Before(h2) == h1;
    assert o in answer.offsets && !Shown(h1, o);
    assert Step(h, c, TimedOut(answer)) == h2 + [CommitDone];
    assert Before(h2 + [CommitDone]) == h2;
  }

  lemma {:induction false} StoredIsNamed(h: History, key: string) returns (m: Message)
    requires Stored(h, key) >= 0
    ensures Key(m) == key && Stored(h, key) > 0
  {
    if (Last(h).Took? || Last(h).Dropped?) && Key(Last(h).m) == key {
      m := Last(h).m;
    } else {
      m := StoredIsNamed(Before(h), key);
    }
  }

  /** Whatever the library commits next is backed by the reports exactly if what it has
      stored is covered. */
  lemma CommitsBackedIffCovered(h: History, c: Config)
    requires Steady(h) && Backed(h)
    ensures Covered(h) <==> forall r :: Honest(h, r) ==> Backed(Step(h, c, TimedOut(r)))
  {
    if Covered(h) {
      forall r | Honest(h, r)
        ensures Backed(Step(h, c, TimedOut(r)))
      {
        StepIsBacked(h, c, TimedOut(r));
      }
    } else {
      var key :| !CoveredAt(h, key);
      var m := StoredIsNamed(h, key);
      var o := Offset(m.topic, m.partition, Stored(h, key));
      UncoveredExposes(h, c, o);
      assert Honest(h, Result(true, [o]));
    }
  }

  /** A run whose commits were answered honestly has announced no offset past the reports,
      and can announce none with its next commit, if and only if no message past the limit
      had a new offset. */
  lemma BackedIffNeverOverruns(c: Config, inputs: seq<Input>)
    requires HonestRun(c, inputs)
    ensures var h := Run(c, inputs);
            Backed(h) && (forall r :: Honest(h, r) ==> Backed(Step(h, c, TimedOut(r)))) <==> NeverOverruns(c, inputs)
  {
    var h := Run(c, inputs);
    CoveredIffNeverOverruns(c, inputs);
    if NeverOverruns(c, inputs) {
      RunsAreBacked(c, inputs);
    }
    if Backed(h) {
      CommitsBackedIffCovered(h, c);
    }
  }

  lemma OneMoreInput(c: Config, inputs: seq<Input>, i: Input)
    ensures Run(c, inputs + [i]) == Step(Run(c, inputs), c, i)
    ensures HonestRun(c, inputs + [i]) <==> HonestRun(c, inputs) && HonestInput(Run(c, inputs), c, i)
  {
    assert (inputs + [i])[..|inputs|] == inputs;
  }

  lemma FirstMessage(c: Config, m: Message)
    requires c.maxMessages == 1
    ensures Step([], c, Received(m, NoOffset)) == [Took(m)]
  {
    var none: History := [];
    var h := none + [Took(m)];
    assert Before(h) == none && Last(h) == Took(m);
    assert Taken(none) == 0 && LastTotal(none) == 0 && AtLastCommit(none) == 0;
    assert Taken(h) == 1;
    assert LastTotal(h) == LastTotal(none);
    assert AtLastCommit(h) == AtLastCommit(none);
    assert Report(h, false) == h;
    assert Commit(h, c, false, NoOffset) == h;
  }

  lemma SecondMessage(c: Config, m: Message, m': Message)
    requires c.maxMessages == 1
    ensures Step([Took(m)], c, Received(m', NoOffset)) == [Took(m), Dropped(m')]
  {
    assert Before([Took(m)]) == [];
    assert Taken([Took(m)]) == 1;
  }

  lemma TwoMessages(m: Message, m': Message)
    requires Key(m') == Key(m) && m'.offset > m.offset
    ensures var h := [Took(m), Dropped(m')];
            Steady(h) && Key(m) in Known(h) && Largest(h, Key(m)) == m.offset && Stored(h, Key(m)) == m'.offset + 1
  {
    var none: History := [];
    var h1, h2 := none + [Took(m)], none + [Took(m)] + [Dropped(m')];
    assert Before(h1) == none && Before(h2) == h1;
    assert Steady(h2) by {
      TakeIsSteady(none, m);
      NeutralIsSteady(h1, Dropped(m'));
    }
    assert Largest(none, Key(m)) == 0 && Stored(none, Key(m)) == -1;
    assert Largest(h1, Key(m)) == m.offset && Key(m) in Known(h1) && Stored(h1, Key(m)) == m.offset + 1;
    assert Largest(h2, Key(m)) == m.offset && Key(m) in Known(h2) && Stored(h2, Key(m)) == m'.offset + 1;
    assert h2 == [Took(m), Dropped(m')];
  }

  /** A run of two messages under a limit of one commits an offset it never reported. */
  lemma LimitedRunIsNotBacked(c: Config, m: Message, m': Message)
    requires c.maxMessages == 1 && Key(m') == Key(m) && m'.offset > m.offset
    ensures var inputs := [Received(m, NoOffset), Received(m', NoOffset),
                           TimedOut(Result(true, [Offset(m'.topic, m'.partition, m'.offset + 1)]))];
            HonestRun(c, inputs) && !Backed(Run(c, inputs))
  {
    var o := Offset(m'.topic, m'.partition, m'.offset + 1);
    var h1, h2 := [Took(m)], [Took(m), Dropped(m')];
    FirstMessage(c, m);
    SecondMessage(c, m, m');
    var i1, i2, i3 := Received(m, NoOffset), Received(m', NoOffset), TimedOut(Result(true, [o]));
    OneMoreInput(c, [], i1);
    OneMoreInput(c, [i1], i2);
    OneMoreInput(c, [i1, i2], i3);
    assert [] + [i1] == [i1] && [i1] + [i2] == [i1, i2] && [i1, i2] + [i3] == [i1, i2, i3];
    TwoMessages(m, m');
    UncoveredExposes(h2, c, o);
  }
}
