/** What the verifiable consumer prints and commits in answer to each input, in closed form:
    the reports of one step are at most one, and every commit comes after it. */
module VerifiableConsumerLines {
  import opened Names
  import opened VerifiableConsumer
  import opened VerifiableConsumerProofs

  // ----- what a report says -----

  predicate TakesAt(h: History, k: int, key: string) {
    0 <= k < |h| && TakesFrom(h[k], key)
  }

  predicate ReportAt(h: History, k: int) {
    0 <= k < |h| && h[k].Printed? && h[k].line.RecordsConsumed?
  }

  /** The k-th mark takes the first message of the partition since the last report. */
  ghost predicate FirstTaken(h: History, key: string, k: int) {
    && TakesAt(h, k, key)
    && (forall j :: k < j ==> !ReportAt(h, j))
    && (forall i :: i < k && TakesAt(h, i, key) ==> exists j :: i < j < k && ReportAt(h, j))
  }

  lemma OneMark(h: History, key: string)
    requires h != []
    ensures forall k :: TakesAt(h, k, key) <==> TakesAt(Before(h), k, key) || (k == |h| - 1 && TakesFrom(Last(h), key))
    ensures forall k :: ReportAt(h, k) <==> ReportAt(Before(h), k) || (k == |h| - 1 && Last(h).Printed? && Last(h).line.RecordsConsumed?)
  {
  }

  lemma {:induction false} LargestBounds(h: History, key: string, k: nat)
    requires TakesAt(h, k, key)
    ensures key in Known(h) && h[k].m.offset <= Largest(h, key)
  {
    if k < |h| - 1 {
      LargestBounds(Before(h), key, k);
    }
  }

  lemma {:induction false} LargestIsTaken(h: History, key: string) returns (k: nat)
    requires key in Known(h)
    ensures TakesAt(h, k, key) && h[k].m.offset == Largest(h, key)
  {
    NothingOfUnknown(Before(h), key);
    if TakesFrom(Last(h), key) && Last(h).m.offset == Largest(h, key) {
      k := |h| - 1;
    } else {
      k := LargestIsTaken(Before(h), key);
    }
  }

  /** A report lists exactly the partitions a message was taken of, and the largest offset
      it prints is the largest taken. */
  lemma LargestIs(h: History, key: string)
    ensures key in Ranges(h) <==> exists k :: TakesAt(h, k, key)
    ensures key in Ranges(h) ==> exists k :: TakesAt(h, k, key) && h[k].m.offset == Ranges(h)[key].maxOffset
    ensures forall k :: TakesAt(h, k, key) ==> key in Ranges(h) && h[k].m.offset <= Ranges(h)[key].maxOffset
  {
    hide Known, Largest;
    forall k | TakesAt(h, k, key)
      ensures key in Known(h) && h[k].m.offset <= Largest(h, key)
    {
      LargestBounds(h, key, k);
    }
    if key in Known(h) {
      var k := LargestIsTaken(h, key);
    }
  }

  /** Topic and partition of an entry are those of every message taken under its key. */
  lemma NamesAre(h: History, k: nat)
    requires k < |h| && h[k].Took?
    ensures var m := h[k].m; Key(m) in Ranges(h) && Ranges(h)[Key(m)].topic == m.topic && Ranges(h)[Key(m)].partition == m.partition
  {
    LargestBounds(h, Key(h[k].m), k);
    SetupAgrees(h, h[k].m);
  }

  /** The smallest offset a report prints is that of the first message taken of the partition
      since the last report, and -1 exactly if there is none. */
  lemma SmallestIs(h: History, key: string)
    requires key in Ranges(h)
    ensures Ranges(h)[key].minOffset != -1 <==> exists k :: FirstTaken(h, key, k)
    ensures forall k :: FirstTaken(h, key, k) ==> Ranges(h)[key].minOffset == h[k].m.offset
  {
    hide FirstSince, FirstTaken;
    FirstSinceIs(h, key);
  }

  lemma {:induction false} FirstSinceIs(h: History, key: string)
    ensures FirstSince(h, key) != -1 <==> exists k :: FirstTaken(h, key, k)
    ensures forall k :: FirstTaken(h, key, k) ==> FirstSince(h, key) == h[k].m.offset
  {
    if h != [] {
      var b := Before(h);
      FirstSinceIs(b, key);
      OneMark(h, key);
      if Last(h).Printed? && Last(h).line.RecordsConsumed? {
        assert ReportAt(h, |h| - 1);
      } else {
        FirstTakenStep(h, key);
      }
    }
  }

  /** A message taken with no report after it is, or comes after, the first one taken. */
  lemma FirstBefore(h: History, key: string, i: nat) returns (k: nat)
    requires TakesAt(h, i, key) && forall j :: i < j ==> !ReportAt(h, j)
    ensures FirstTaken(h, key, k)
    decreases i
  {
    if i' :| 0 <= i' < i && TakesAt(h, i', key) && !exists j :: i' < j < i && ReportAt(h, j) {
      k := FirstBefore(h, key, i');
    } else {
      k := i;
    }
  }

  /** One more mark that is no report: what was taken first stays first. */
  lemma FirstTakenStep(h: History, key: string)
    requires h != [] && !(Last(h).Printed? && Last(h).line.RecordsConsumed?)
    ensures forall k :: k < |h| - 1 ==> (FirstTaken(h, key, k) <==> FirstTaken(Before(h), key, k))
    ensures FirstTaken(h, key, |h| - 1) <==> TakesFrom(Last(h), key) && !exists k :: FirstTaken(Before(h), key, k)
  {
    OneMark(h, key);
    assert forall j :: ReportAt(h, j) <==> ReportAt(Before(h), j);
    hide TakesAt, ReportAt;
    FirstTakenLast(h, key);
  }

  lemma FirstTakenLast(h: History, key: string)
    requires h != [] && !(Last(h).Printed? && Last(h).line.RecordsConsumed?)
    ensures FirstTaken(h, key, |h| - 1) <==> TakesFrom(Last(h), key) && !exists k :: FirstTaken(Before(h), key, k)
  {
    OneMark(h, key);
    var b, n := Before(h), |h| - 1;
    assert forall j :: ReportAt(h, j) <==> ReportAt(b, j);
    if TakesFrom(Last(h), key) && !FirstTaken(h, key, n) {
      var i :| 0 <= i < n && TakesAt(h, i, key) && !exists j :: i < j < n && ReportAt(h, j);
      var k := FirstBefore(b, key, i);
    }
  }

  // ----- what a step does -----

  /** The report of everything not yet reported. */
  function FullReport(h: History): Mark {
    Printed(RecordsConsumed(Taken(h), Taken(h) - Reported(h), Ranges(h)))
  }

  function IfUnreported(h: History): seq<Mark> {
    if Reported(h) < Taken(h) then [FullReport(h)] else []
  }

  /** What the commit callback prints. */
  function Announcement(r: CommitResult): seq<Mark> {
    if r.Result? then [Printed(OffsetsCommitted(r.success, r.offsets))] else []
  }

  /** What a message does that is not past the limit: 1000 messages not yet reported, or a
      commit after it, bring a report; 1000 messages since the last commit bring a commit. */
  function CalledByMessage(h: History, c: Config, m: Message, r: CommitResult): seq<Mark> {
    var commit := !c.useAutoCommit && Taken(h) + 1 - AtLastCommit(h) >= 1000;
    var report := commit || Taken(h) + 1 - Reported(h) >= 1000;
    [Took(m)] + (if report then [FullReport(h + [Took(m)])] else []) + (if commit then Announcement(r) + [CommitDone] else [])
  }

  /** What an input makes the program do. */
  function Called(h: History, c: Config, i: Input): seq<Mark> {
    match i
    case TimedOut(r) => IfUnreported(h) + Announcement(r) + [CommitDone]
    case Received(m, r) => if c.maxMessages >= 0 && Taken(h) >= c.maxMessages then [Dropped(m)] else CalledByMessage(h, c, m, r)
    case PartitionEof => if c.exitEof then [Stopped] else []
    case CoordinatorNotAvailable => []
    case ConsumeFailed => [Stopped]
    case AutoCommitted(r) => if r.Result? then IfUnreported(h) + Announcement(r) else []
    case Assigning(ps) => IfUnreported(h) + [Printed(PartitionsAssigned(ps))]
    case Revoking(ps, r) => IfUnreported(h) + Announcement(r) + [CommitDone] + [Printed(PartitionsRevoked(ps))]
    case FinalCommit(r) => IfUnreported(h) + Announcement(r) + [CommitDone]
  }

  lemma ReportIs(h: History)
    requires Counters(h)
    ensures Report(h, true) == h + IfUnreported(h) && Report(Report(h, true), true) == Report(h, true)
    ensures LastTotal(h) >= Taken(h) ==> Report(h, true) == h
  {
    ReportCounts(h, true);
    assert h + [] == h;
  }

  /** An immediate commit, after a report or not: one report if there is something to
      report, the announcement, and the commit. */
  lemma CommitIs(h: History, c: Config, r: CommitResult)
    requires Counters(h)
    ensures Commit(h, c, true, r) == h + (IfUnreported(h) + Announcement(r) + [CommitDone])
    ensures Commit(Report(h, true), c, true, r) == Commit(h, c, true, r)
  {
    hide Report, IfUnreported;
    ReportIs(h);
    ReportCounts(h, true);
    CallbackIs(h, r);
    var x := IfUnreported(h) + Announcement(r);
    assert h + x + [CommitDone] == h + (x + [CommitDone]);
    assert r.NoOffset? ==> x == IfUnreported(h);
  }

  lemma CallbackIs(h: History, r: CommitResult)
    requires Counters(h)
    ensures OnCommitted(Report(h, true), r) == h + (IfUnreported(h) + Announcement(r))
    ensures r.Result? ==> OnCommitted(h, r) == h + (IfUnreported(h) + Announcement(r))
  {
    hide Report, IfUnreported;
    ReportIs(h);
    ReportCounts(h, true);
    assert IfUnreported(h) + [] == IfUnreported(h);
  }

  /** With something to report, a report changes the history in this way. */
  lemma OneReport(h: History, immediate: bool)
    requires Counters(h) && Reported(h) < Taken(h) && (!immediate ==> Taken(h) - Reported(h) >= 1000)
    ensures var t := h + [FullReport(h)];
            && Report(h, immediate) == t && Counters(t) && LastTotal(t) == Taken(t) == Taken(h) && AtLastCommit(t) == AtLastCommit(h)
  {
    ReportCounts(h, true);
  }

  /** A commit when all is reported. */
  lemma CommitOfReported(h: History, c: Config, immediate: bool, r: CommitResult)
    requires Counters(h) && LastTotal(h) == Taken(h)
    requires immediate || (!c.useAutoCommit && Taken(h) - AtLastCommit(h) >= 1000)
    ensures Commit(h, c, immediate, r) == h + (Announcement(r) + [CommitDone])
  {
    assert Commit(h, c, immediate, r) == Commit(h, c, true, r);
    CommitIs(h, c, r);
    assert [] + Announcement(r) == Announcement(r);
  }

  lemma MessageIs(h: History, c: Config, m: Message, r: CommitResult)
    requires Counters(h) && !AtLimit(h, c)
    ensures Receive(h, c, m, r) == h + CalledByMessage(h, c, m, r)
  {
    hide Taken, Reported, LastTotal, AtLastCommit, ReportsFirst, FullReport;
    var h1 := h + [Took(m)];
    TakeCounts(h, m);
    var commit := !c.useAutoCommit && Taken(h1) - AtLastCommit(h1) >= 1000;
    var full, h3 := FullReport(h1), h1 + [FullReport(h1)];
    var tail := Announcement(r) + [CommitDone];
    OneReport(h1, true);
    if Taken(h1) - Reported(h1) >= 1000 {
      OneReport(h1, false);
      if commit {
        CommitOfReported(h3, c, false, r);
        assert h3 + tail == h + ([Took(m)] + [full] + tail);
      } else {
        assert h3 == h + ([Took(m)] + [full] + []);
      }
    } else if commit {
      CommitOfReported(h3, c, true, r);
      assert Commit(h1, c, false, r) == Commit(h1, c, true, r) == Commit(h3, c, true, r) by { CommitIs(h1, c, r); }
      assert h3 + tail == h + ([Took(m)] + [full] + tail);
    } else {
      assert h1 == h + ([Took(m)] + [] + []);
    }
  }

  /** Every input does exactly what it calls for: at most one report, of everything not yet
      reported; every commit after it, announced before it returns; and a revoke announced
      after its commit. */
  lemma StepIs(h: History, c: Config, i: Input)
    requires Counters(h)
    ensures Step(h, c, i) == h + Called(h, c, i)
  {
    hide Report, Commit, CalledByMessage, IfUnreported, Announcement;
    ReportIs(h);
    match i
    case TimedOut(r) => CommitIs(h, c, r);
    case Received(m, r) => if !AtLimit(h, c) { MessageIs(h, c, m, r); }
    case PartitionEof => assert h + [] == h;
    case CoordinatorNotAvailable => assert h + [] == h;
    case ConsumeFailed =>
    case AutoCommitted(r) =>
      CallbackIs(h, r);
      assert h + [] == h;
    case Assigning(ps) =>
      assert h + IfUnreported(h) + [Printed(PartitionsAssigned(ps))] == h + (IfUnreported(h) + [Printed(PartitionsAssigned(ps))]);
    case Revoking(ps, r) =>
      CommitIs(h, c, r);
      var x := IfUnreported(h) + Announcement(r) + [CommitDone];
      assert h + x + [Printed(PartitionsRevoked(ps))] == h + (x + [Printed(PartitionsRevoked(ps))]);
    case FinalCommit(r) => CommitIs(h, c, r);
  }

  // ----- over runs -----

  /** What was printed. */
  function Lines(h: History): seq<Line> {
    if h == [] then [] else Lines(Before(h)) + if Last(h).Printed? then [Last(h).line] else []
  }

  lemma {:induction false} LinesConcat(h: History, t: History)
    ensures Lines(h + t) == Lines(h) + Lines(t)
  {
    if t == [] {
      assert h + t == h;
    } else {
      LinesConcat(h, Before(t));
      assert Before(h + t) == h + Before(t);
    }
  }

  lemma Regroup(a: History, b: History, c: History)
    ensures a + b + c == a + (b + c)
  {
  }

  /** What the k-th input of a run called for is what was done between the history before
      it and the rest of the run. */
  lemma {:induction false} RunIs(c: Config, inputs: seq<Input>, k: nat) returns (rest: History)
    requires k < |inputs|
    ensures var h := Run(c, inputs[..k]); Run(c, inputs) == h + Called(h, c, inputs[k]) + rest
  {
    hide Step, Called, Counters;
    var n := |inputs| - 1;
    var h := Run(c, inputs[..n]);
    EveryRunAccounts(c, inputs[..n]);
    StepIs(h, c, inputs[n]);
    if k == n {
      rest := [];
      assert h + Called(h, c, inputs[n]) + [] == h + Called(h, c, inputs[n]);
    } else {
      var r := RunIs(c, inputs[..n], k);
      assert inputs[..n][..k] == inputs[..k];
      rest := r + Called(h, c, inputs[n]);
      Regroup(Run(c, inputs[..k]) + Called(Run(c, inputs[..k]), c, inputs[k]), r, Called(h, c, inputs[n]));
    }
  }

  /** The lines from a place on. */
  predicate StandsAt(output: seq<Line>, n: nat, lines: seq<Line>) {
    n + |lines| <= |output| && output[n..n + |lines|] == lines
  }

  /** In every run, what the k-th input called for stands on standard output right after
      what was printed before it. */
  lemma RunPrints(c: Config, inputs: seq<Input>, k: nat)
    requires k < |inputs|
    ensures var h := Run(c, inputs[..k]); StandsAt(Lines(Run(c, inputs)), |Lines(h)|, Lines(Called(h, c, inputs[k])))
  {
    var h := Run(c, inputs[..k]);
    var rest := RunIs(c, inputs, k);
    LinesConcat(h + Called(h, c, inputs[k]), rest);
    LinesConcat(h, Called(h, c, inputs[k]));
  }

  /** A revoke commits and announces the commit, if there was something to commit, right
      before it announces the revoke; whatever the history. */
  lemma RevokeCommitsFirst(h: History, c: Config, ps: seq<(string, int)>, r: CommitResult)
    ensures var t := Step(h, c, Revoking(ps, r));
            && |t| >= 2 && t[|t| - 1] == Printed(PartitionsRevoked(ps)) && t[|t| - 2] == CommitDone
            && (r.Result? ==> |t| >= 3 && t[|t| - 3] == Printed(OffsetsCommitted(r.success, r.offsets)))
            && AtLastCommit(t) == Taken(t)
  {
    var t := Step(h, c, Revoking(ps, r));
    assert Last(Before(t)) == CommitDone;
  }

  /** So does the commit at the end of the program, and one on a timeout. */
  lemma FinalCommitCommits(h: History, c: Config, i: Input)
    requires i.FinalCommit? || i.TimedOut?
    ensures var t := Step(h, c, i);
            && |t| >= 1 && t[|t| - 1] == CommitDone
            && (i.r.Result? ==> |t| >= 2 && t[|t| - 2] == Printed(OffsetsCommitted(i.r.success, i.r.offsets)))
            && AtLastCommit(t) == Taken(t)
  {
    assert Last(Step(h, c, i)) == CommitDone;
  }
}
