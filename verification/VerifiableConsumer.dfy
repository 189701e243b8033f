/** The consumer of examples/kafkatest_verifiable_client.cpp, told by its history: the
    messages it took and the lines it printed. What the program keeps in counters is
    here counted out of the history, so that the counters can be proved against it. */
module VerifiableConsumer {
  import opened Names

  datatype Message = Message(topic: string, partition: int, offset: nat)

  function Key(m: Message): string {
    Name(m.topic, m.partition)
  }

  datatype Range = Range(topic: string, partition: int, minOffset: int, maxOffset: int)

  /** An offset as the commit callback gets it; negative when there was none. */
  datatype Offset = Offset(topic: string, partition: int, offset: int)

  /** The lines on standard output. */
  datatype Line =
    | RecordsConsumed(total: int, count: int, ranges: map<string, Range>)
    | OffsetsCommitted(success: bool, offsets: seq<Offset>)
    | PartitionsAssigned(partitions: seq<(string, int)>)
    | PartitionsRevoked(partitions: seq<(string, int)>)

  /** What happens, in order. `Dropped` is a message past the limit, `CommitDone` the
      return of a commit call. */
  datatype Mark =
    | Took(m: Message)
    | Dropped(m: Message)
    | Printed(line: Line)
    | CommitDone
    | Stopped

  type History = seq<Mark>

  datatype Config = Config(maxMessages: int, useAutoCommit: bool, exitEof: bool)

  /** What a commit hands to the callback. */
  datatype CommitResult = NoOffset | Result(success: bool, offsets: seq<Offset>)

  datatype Input =
    | TimedOut(r: CommitResult)
    | Received(m: Message, r: CommitResult)
    | PartitionEof
    | CoordinatorNotAvailable
    | ConsumeFailed
    | AutoCommitted(r: CommitResult)                                  // the callback, from the poll
    | Assigning(partitions: seq<(string, int)>)
    | Revoking(partitions: seq<(string, int)>, r: CommitResult)
    | FinalCommit(r: CommitResult)

  // ----- counting -----

  function Last(h: History): Mark
    requires h != []
  {
    h[|h| - 1]
  }

  function Before(h: History): History
    requires h != []
  {
    h[..|h| - 1]
  }

  /** The messages taken. */
  function Taken(h: History): nat {
    if h == [] then 0 else Taken(Before(h)) + if Last(h).Took? then 1 else 0
  }

  /** The sum of the counts printed. */
  function Reported(h: History): int {
    if h == [] then 0
    else Reported(Before(h)) + if Last(h).Printed? && Last(h).line.RecordsConsumed? then Last(h).line.count else 0
  }

  /** The total last printed. */
  function LastTotal(h: History): int {
    if h == [] then 0
    else if Last(h).Printed? && Last(h).line.RecordsConsumed? then Last(h).line.total
    else LastTotal(Before(h))
  }

  /** The messages taken when the last commit returned. */
  function AtLastCommit(h: History): nat {
    if h == [] then 0
    else if Last(h).CommitDone? then Taken(h)
    else AtLastCommit(Before(h))
  }

  predicate Running(h: History) {
    Stopped !in h
  }

  predicate TakesFrom(mark: Mark, key: string) {
    mark.Took? && Key(mark.m) == key
  }

  /** The messages taken of one partition. */
  function TakenOf(h: History, key: string): nat {
    if h == [] then 0 else TakenOf(Before(h), key) + if TakesFrom(Last(h), key) then 1 else 0
  }

  /** The first offset taken of a partition since the last report, or -1. */
  function FirstSince(h: History, key: string): int {
    if h == [] then -1
    else if Last(h).Printed? && Last(h).line.RecordsConsumed? then -1
    else
      var first := FirstSince(Before(h), key);
      if first == -1 && TakesFrom(Last(h), key) then Last(h).m.offset else first
  }

  /** The largest offset taken of a partition, or 0. */
  function Largest(h: History, key: string): nat {
    if h == [] then 0
    else
      var largest := Largest(Before(h), key);
      if TakesFrom(Last(h), key) && largest < Last(h).m.offset then Last(h).m.offset else largest
  }

  /** The partitions messages were taken of, with their topic and number. */
  function Known(h: History): map<string, (string, int)> {
    if h == [] then map[]
    else if Last(h).Took? then Known(Before(h))[Key(Last(h).m) := (Last(h).m.topic, Last(h).m.partition)]
    else Known(Before(h))
  }

  /** The largest offset the library can have stored for a partition: the one after the
      furthest message handed out, or -1. */
  function Stored(h: History, key: string): int {
    if h == [] then -1
    else
      var stored := Stored(Before(h), key);
      if (Last(h).Took? || Last(h).Dropped?) && Key(Last(h).m) == key && stored < Last(h).m.offset + 1 then Last(h).m.offset + 1
      else stored
  }

  // ----- the program -----

  function Ranges(h: History): map<string, Range> {
    map key | key in Known(h) :: Range(Known(h)[key].0, Known(h)[key].1, FirstSince(h, key), Largest(h, key))
  }

  /** `report_records_consumed` */
  function Report(h: History, immediate: bool): History {
    if Taken(h) <= LastTotal(h) + (if immediate then 0 else 999) then h
    else h + [Printed(RecordsConsumed(Taken(h), Taken(h) - LastTotal(h), Ranges(h)))]
  }

  /** `offset_commit_cb` */
  function OnCommitted(h: History, r: CommitResult): History {
    if r.NoOffset? then h else Report(h, true) + [Printed(OffsetsCommitted(r.success, r.offsets))]
  }

  /** `do_commit` */
  function Commit(h: History, c: Config, immediate: bool, r: CommitResult): History {
    if !immediate && (c.useAutoCommit || AtLastCommit(h) + 1000 > Taken(h)) then h
    else OnCommitted(if LastTotal(h) < Taken(h) then Report(h, true) else h, r) + [CommitDone]
  }

  predicate AtLimit(h: History, c: Config) {
    0 <= c.maxMessages <= Taken(h)
  }

  /** `msg_consume` on a message. */
  function Receive(h: History, c: Config, m: Message, r: CommitResult): History {
    if AtLimit(h, c) then h + [Dropped(m)]
    else Commit(Report(h + [Took(m)], false), c, false, r)
  }

  /** Everything the program does in answer to the library. */
  function Step(h: History, c: Config, i: Input): History {
    match i
    case TimedOut(r) => Commit(Report(h, true), c, true, r)
    case Received(m, r) => Receive(h, c, m, r)
    case PartitionEof => if c.exitEof then h + [Stopped] else h
    case CoordinatorNotAvailable => h
    case ConsumeFailed => h + [Stopped]
    case AutoCommitted(r) => OnCommitted(h, r)
    case Assigning(ps) => Report(h, true) + [Printed(PartitionsAssigned(ps))]
    case Revoking(ps, r) => Commit(Report(h, true), c, true, r) + [Printed(PartitionsRevoked(ps))]
    case FinalCommit(r) => Commit(h, c, true, r)
  }

  function Run(c: Config, inputs: seq<Input>): History {
    if inputs == [] then [] else Step(Run(c, inputs[..|inputs| - 1]), c, inputs[|inputs| - 1])
  }
}
