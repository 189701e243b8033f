/** What every run of the exactly-once step system satisfies without any condition:
    no output is committed twice or made up, offsets and output are committed
    together, and a message that was skipped is lost for good. The refinement can
    fail, and here is how. */
module ExactlyOnceSafety {
  import opened MessageFunction
  import opened OutputStream
  import opened ExactlyOnce
  import opened ExactlyOnceShape
  import opened ExactlyOnceRefinement

  /** The entry is the output of the message it names. */
  ghost predicate Genuine(s: State, e: Entry) {
    e.offset < |Log(s.cluster, e.part)| && s.process(Log(s.cluster, e.part)[e.offset]) == Some(e.out)
  }

  ghost predicate CommittedOutputSound(s: State) {
    && InOrder(s.cluster.output)
    && (forall e :: e in s.cluster.output ==> Genuine(s, e) && e.offset < Start(s.cluster, e.part))
  }

  ghost predicate PendingEntrySound(s: State, e: Entry) {
    && Genuine(s, e)
    && e.part in s.consumer.cursor && e.offset < s.consumer.cursor[e.part]
    && (e.part in s.cluster.owned ==> Start(s.cluster, e.part) <= e.offset)
  }

  ghost predicate PendingOutputSound(s: State) {
    && InOrder(s.cluster.pending)
    && (forall e :: e in s.cluster.pending ==> PendingEntrySound(s, e))
  }

  ghost predicate Sound(s: State) {
    CommittedOutputSound(s) && (Running(s) ==> PendingOutputSound(s))
  }

  // ----- sequences -----

  lemma {:induction false} EntryIsInItsShare(es: seq<Entry>, e: Entry)
    requires e in es
    ensures e in Share(es, e.part)
  {
    var front := es[..|es| - 1];
    if e != es[|es| - 1] {
      assert e in front;
      EntryIsInItsShare(front, e);
    }
  }

  // ----- one step -----

  /** Every entry of the open transaction is of a partition with a position. */
  lemma PendingHasPosition(s: State, e: Entry)
    requires Bookkeeping(s) && Running(s) && e in s.cluster.pending
    ensures e.part in s.consumer.position
  {
    EntryIsInItsShare(s.cluster.pending, e);
  }

  lemma PublishIsSound(s: State, t: State)
    requires Bookkeeping(s) && Running(s) && Sound(s)
    requires t.cluster.log == s.cluster.log && t.process == s.process && Published(s, t)
    ensures CommittedOutputSound(t)
    ensures forall e :: e in s.cluster.pending ==> Start(s.cluster, e.part) <= e.offset
  {
    PublishedOffsets(s, t);
    SameLogs(s, t);
    forall e | e in s.cluster.pending
      ensures e.part in Held(s) && Start(s.cluster, e.part) <= e.offset < Start(t.cluster, e.part)
    {
      PendingHasPosition(s, e);
      assert PendingEntrySound(s, e);
    }
    InOrderConcat(s.cluster.output, s.cluster.pending);
  }

  lemma UnpublishedIsSound(s: State, t: State)
    requires CommittedOutputSound(s)
    requires t.cluster.log == s.cluster.log && t.process == s.process && Unpublished(s, t)
    ensures CommittedOutputSound(t)
  {
    SameLogs(s, t);
  }

  /** Output is only ever appended to, beyond the committed offsets, and committed
      offsets never go back. */
  ghost predicate Extends(s: State, t: State) {
    && s.cluster.output <= t.cluster.output
    && (forall e :: e in t.cluster.output[|s.cluster.output|..] ==> Start(s.cluster, e.part) <= e.offset)
    && (forall p :: Start(s.cluster, p) <= Start(t.cluster, p))
  }

  /** What a step may do to what is committed. */
  ghost predicate Atomic(s: State, e: Event, t: State) {
    || Unpublished(s, t)
    || (Running(s) && Published(s, t))
    || (e.OthersCommit? && Enabled(s, e) && t == CommitByOthers(s, e.p, e.n))
  }

  /** Committed offsets and committed output change together or not at all, in every
      step and also when the process dies in the middle of one. */
  lemma StepIsAtomic(s: State, e: Event)
    requires Shape(s)
    ensures Atomic(s, e, Step(s, e))
  {
    hide CommitAndStartNew, EndTransaction, HandleMessage, CommitByOthers;
    if Enabled(s, e) {
      match e
      case Turn(now, later, o) => CommitAndStartNewEffect(s, o);
      case Revoked(ps, lost, ok, o) => EndTransactionEffect(s, lost, o);
      case Message(p, reports, accepted, o) => MessageIsQuiet(s, p, reports, accepted, o);
      case Stop(lost, ok, o) => EndTransactionEffect(s, lost, o);
      case _ =>
    }
  }

  lemma MessageIsQuiet(s: State, p: Partition, reports: seq<bool>, accepted: bool, o: Oracle)
    requires Shape(s) && Enabled(s, Message(p, reports, accepted, o))
    ensures var t := HandleMessage(s, p, reports, accepted, o);
            Unpublished(s, t) && t.cluster.log == s.cluster.log && t.process == s.process
  {
    if Rejected(s, p, reports, accepted) {
      RejectedMessage(s, p, reports, accepted, o);
    } else {
      AcceptedMessage(s, p, reports, accepted, o);
    }
  }

  lemma OthersAppend(s: State, p: Partition, n: nat, e: Entry)
    requires Start(s.cluster, p) + n <= |Log(s.cluster, p)|
    requires e in Expected(s.process, Log(s.cluster, p), p, Start(s.cluster, p), Start(s.cluster, p) + n)
    ensures e.part == p && Start(s.cluster, p) <= e.offset < Start(s.cluster, p) + n && Genuine(s, e)
  {
    ExpectedInOrder(s.process, Log(s.cluster, p), p, Start(s.cluster, p), Start(s.cluster, p) + n);
  }

  lemma OthersExtend(s: State, p: Partition, n: nat)
    requires Start(s.cluster, p) + n <= |Log(s.cluster, p)|
    ensures Extends(s, CommitByOthers(s, p, n))
  {
    var t := CommitByOthers(s, p, n);
    var es := Expected(s.process, Log(s.cluster, p), p, Start(s.cluster, p), Start(s.cluster, p) + n);
    assert t.cluster.output[|s.cluster.output|..] == es;
    forall e | e in es
      ensures Start(s.cluster, e.part) <= e.offset
    {
      OthersAppend(s, p, n, e);
    }
  }

  lemma OthersKeepOrder(s: State, p: Partition, n: nat)
    requires CommittedOutputSound(s) && Start(s.cluster, p) + n <= |Log(s.cluster, p)|
    ensures InOrder(CommitByOthers(s, p, n).cluster.output)
  {
    var start := Start(s.cluster, p);
    ExpectedInOrder(s.process, Log(s.cluster, p), p, start, start + n);
    InOrderConcat(s.cluster.output, Expected(s.process, Log(s.cluster, p), p, start, start + n));
  }

  lemma OthersAreSound(s: State, p: Partition, n: nat)
    requires CommittedOutputSound(s) && Start(s.cluster, p) + n <= |Log(s.cluster, p)|
    ensures CommittedOutputSound(CommitByOthers(s, p, n))
  {
    var t := CommitByOthers(s, p, n);
    OthersKeepOrder(s, p, n);
    SameLogs(s, t);
    forall e | e in t.cluster.output
      ensures Genuine(t, e) && e.offset < Start(t.cluster, e.part)
    {
      if e in s.cluster.output {
        assert Genuine(s, e);
      } else {
        OthersAppend(s, p, n, e);
      }
    }
  }

  lemma StepExtends(s: State, e: Event)
    requires Shape(s) && Sound(s)
    ensures Extends(s, Step(s, e))
  {
    StepIsAtomic(s, e);
    var t := Step(s, e);
    if e.OthersCommit? && Enabled(s, e) {
      OthersExtend(s, e.p, e.n);
    } else if Running(s) && Published(s, t) {
      PublishedOffsets(s, t);
      forall x | x in s.cluster.pending
        ensures Start(s.cluster, x.part) <= x.offset
      {
        PendingHasPosition(s, x);
        assert PendingEntrySound(s, x);
      }
    }
  }

  /** Nothing changes for entries already in the transaction when logs only grow and
      their partitions stay put. */
  lemma PendingStaysSound(s: State, t: State)
    requires PendingOutputSound(s) && t.cluster.pending == s.cluster.pending && t.process == s.process
    requires forall p :: Log(s.cluster, p) <= Log(t.cluster, p)
    requires forall p :: p in s.consumer.cursor ==>
               && p in t.consumer.cursor && t.consumer.cursor[p] == s.consumer.cursor[p]
               && (p in t.cluster.owned ==> p in s.cluster.owned && Start(t.cluster, p) == Start(s.cluster, p))
    ensures PendingOutputSound(t)
  {
    forall e | e in t.cluster.pending
      ensures PendingEntrySound(t, e)
    {
      assert PendingEntrySound(s, e);
      assert Log(s.cluster, e.part) <= Log(t.cluster, e.part);
    }
  }

  lemma AppendIsSound(s: State, p: Partition, r: Record)
    requires Shape(s) && Sound(s)
    ensures Sound(Step(s, Append(p, r)))
  {
    var t := Step(s, Append(p, r));
    assert forall q {:trigger Log(t.cluster, q)} :: Log(s.cluster, q) <= Log(t.cluster, q);
    forall e | e in t.cluster.output
      ensures Genuine(t, e) && e.offset < Start(t.cluster, e.part)
    {
      assert Genuine(s, e);
    }
    if Running(s) {
      PendingStaysSound(s, t);
    }
  }

  lemma QuietIsSound(s: State, e: Event)
    requires Shape(s) && Sound(s) && Enabled(s, e)
    requires e.Evict? || e.DeliveryFailure? || e.Nothing? || e.Crash? || e.OthersCommit? || e.Assigned?
    ensures Running(Step(s, e)) ==> PendingOutputSound(Step(s, e))
  {
    var t := Step(s, e);
    if Running(t) {
      SameLogs(s, t);
      PendingStaysSound(s, t);
    }
  }

  lemma AcceptedIsSound(s: State, p: Partition, t: State)
    requires Bookkeeping(s) && PendingOutputSound(s) && p in Assignment(s) && s.consumer.cursor[p] < |Log(s.cluster, p)|
    requires var n := s.consumer.cursor[p];
             && t.consumer.cursor == s.consumer.cursor[p := n + 1]
             && t.cluster == s.cluster.(pending := s.cluster.pending + Tagged(s.process, p, n, Log(s.cluster, p)[n]))
             && t.process == s.process
    ensures PendingOutputSound(t)
  {
    var n := s.consumer.cursor[p];
    var es := Tagged(s.process, p, n, Log(s.cluster, p)[n]);
    forall e | e in s.cluster.pending
      ensures PendingEntrySound(t, e) && (e.part == p ==> e.offset < n)
    {
      assert PendingEntrySound(s, e);
    }
    InOrderConcat(s.cluster.pending, es);
    assert p in s.cluster.owned ==> p in Held(s);
    assert forall e :: e in es ==> PendingEntrySound(t, e);
  }

  lemma MessageIsSound(s: State, p: Partition, reports: seq<bool>, accepted: bool, o: Oracle)
    requires Shape(s) && Sound(s) && Enabled(s, Message(p, reports, accepted, o))
    ensures Sound(HandleMessage(s, p, reports, accepted, o))
  {
    var t := HandleMessage(s, p, reports, accepted, o);
    if Rejected(s, p, reports, accepted) {
      RejectedMessage(s, p, reports, accepted, o);
    } else {
      AcceptedMessage(s, p, reports, accepted, o);
      AcceptedIsSound(s, p, t);
    }
    UnpublishedIsSound(s, t);
  }

  /** A step after which the transaction is a fresh one or the process is gone. */
  lemma EndingIsSound(s: State, e: Event)
    requires Shape(s) && Sound(s) && Enabled(s, e)
    requires e.Turn? || e.Revoked? || e.Stop? || e.Started?
    ensures var t := Step(s, e); Running(t) ==> t.cluster.pending == [] || (t.cluster == s.cluster && t.consumer == s.consumer)
  {
    match e
    case Turn(now, later, o) => CommitAndStartNewEffect(s, o);
    case Revoked(ps, lost, ok, o) => EndTransactionEffect(s, lost, o);
    case _ =>
  }

  /** No step commits an output twice, out of order, or one that is not the output of
      an input message before the committed offset. */
  lemma StepIsSound(s: State, e: Event)
    requires Shape(s) && Sound(s)
    ensures Sound(Step(s, e))
  {
    if Enabled(s, e) {
      var t := Step(s, e);
      if e.Append? {
        AppendIsSound(s, e.p, e.r);
      } else if e.Message? {
        MessageIsSound(s, e.p, e.reports, e.accepted, e.o);
      } else {
        StepKeepsLog(s, e);
        StepIsAtomic(s, e);
        if e.OthersCommit? {
          OthersAreSound(s, e.p, e.n);
        } else if Unpublished(s, t) {
          UnpublishedIsSound(s, t);
        } else {
          PublishIsSound(s, t);
        }
        if e.Turn? || e.Revoked? || e.Stop? || e.Started? {
          EndingIsSound(s, e);
          if Running(t) && t.cluster.pending != [] {
            SameLogs(s, t);
            PendingStaysSound(s, t);
          }
        } else {
          QuietIsSound(s, e);
        }
      }
    }
  }

  lemma StepKeepsLog(s: State, e: Event)
    requires Shape(s) && !e.Append?
    ensures Step(s, e).cluster.log == s.cluster.log && Step(s, e).process == s.process
  {
    if Enabled(s, e) {
      match e
      case Turn(now, later, o) => CommitAndStartNewEffect(s, o);
      case Revoked(ps, lost, ok, o) => EndTransactionEffect(s, lost, o);
      case Message(p, reports, accepted, o) => MessageIsQuiet(s, p, reports, accepted, o);
      case Stop(lost, ok, o) => EndTransactionEffect(s, lost, o);
      case _ =>
    }
  }

  // ----- every run -----

  lemma {:induction false} EveryRunIsSound(process: Transform, log: map<Partition, seq<Record>>, es: seq<Event>)
    ensures Sound(Run(Initial(process, log), es))
  {
    if es != [] {
      var front := es[..|es| - 1];
      EveryRunIsSound(process, log, front);
      EveryRunKeepsShape(process, log, front);
      StepIsSound(Run(Initial(process, log), front), es[|es| - 1]);
    }
  }

  /** In no run is the output of an input message committed twice. */
  lemma NoDuplicates(process: Transform, log: map<Partition, seq<Record>>, es: seq<Event>, i: nat, j: nat)
    requires var out := Run(Initial(process, log), es).cluster.output;
             i < |out| && j < |out| && out[i].part == out[j].part && out[i].offset == out[j].offset
    ensures i == j
  {
    EveryRunIsSound(process, log, es);
  }

  /** The output of message `offset` of `p` is not there although the group has moved past it. */
  ghost predicate Lost(s: State, p: Partition, offset: nat) {
    && offset < Start(s.cluster, p)
    && offset < |Log(s.cluster, p)|
    && s.process(Log(s.cluster, p)[offset]).Some?
    && forall e :: e in s.cluster.output ==> !(e.part == p && e.offset == offset)
  }

  lemma StepKeepsLoss(s: State, e: Event, p: Partition, offset: nat)
    requires Shape(s) && Sound(s) && Lost(s, p, offset)
    ensures Lost(Step(s, e), p, offset)
  {
    var t := Step(s, e);
    StepExtends(s, e);
    if e.Append? {
      assert Log(s.cluster, p) <= Log(t.cluster, p);
    } else {
      StepKeepsLog(s, e);
      SameLogs(s, t);
    }
    forall x | x in t.cluster.output
      ensures !(x.part == p && x.offset == offset)
    {
      assert t.cluster.output == s.cluster.output + t.cluster.output[|s.cluster.output|..];
    }
  }

  /** What a run has lost, no continuation of it brings back. */
  lemma {:induction false} LossIsPermanent(s: State, es: seq<Event>, p: Partition, offset: nat)
    requires Shape(s) && Sound(s) && Lost(s, p, offset)
    ensures Lost(Run(s, es), p, offset) && Shape(Run(s, es)) && Sound(Run(s, es))
  {
    if es != [] {
      var front := es[..|es| - 1];
      LossIsPermanent(s, front, p, offset);
      StepKeepsLoss(Run(s, front), es[|es| - 1], p, offset);
      StepKeepsShape(Run(s, front), es[|es| - 1]);
      StepIsSound(Run(s, front), es[|es| - 1]);
    }
  }
}
