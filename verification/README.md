# Verified models of librdkafka's examples and helpers

This project models the parts of librdkafka that carry a protocol or a non-trivial
algorithm of their own, and proves what they are there for.

- **Exactly-once processing** (`ExactlyOnce*.dfy`, `TransactionsApplication.dfy`). The
  consume-transform-produce loop of `examples/transactions.c` as a step system: the
  brokers with input logs, committed offsets, committed output and the open transaction;
  the consumer with its assignment and positions; the application with its counters.
  Runs are arbitrary sequences of main loop turns, rebalance callbacks, messages, delivery
  failures, evictions, commits by other group members, crashes and restarts, and every
  library call may end in every way the program distinguishes. The central law is an
  if-and-only-if over all runs: in every state committed output is the message function
  mapped over committed input and pending output the same over what was read since,
  exactly if every step is clean, where clean is a guard on the step. Without any
  condition: no duplicates, nothing made up, offsets and output committed together,
  transaction typestate, and the bound on an open transaction. `ExactlyOnceEffects.dfy`
  gives the whole state after every step, in terms of the state before it and the outcomes
  of the calls; `OlderBrokerEffects.dfy` does so for the other program.
- **Exactly-once processing with one producer per partition** (`OlderBroker*.dfy`). The
  same for `examples/transactions-older-broker.c`, with isolation between partitions, no
  duplicates without any condition, and the heap structure of list entries, `struct state`
  objects and producers.
- **The message function** (`MessageFunction.dfy`, `Decimal.dfy`), with C integer widths.
- **The verifiable client** (`VerifiableConsumer*.dfy`, `VerifiableClient.dfy`,
  `VerifiableProducer.dfy`). The consumer's counters are proved to be what the history of
  messages and printed lines amounts to, what each input makes the program print and commit
  is given in closed form, and laws are proved about every history.
- **Names** (`Names.dfy`): map keys and transactional ids.
- **Address text** (`Address*.dfy`): parser, printer, round trips, rotating buffers.
- **Partition lists** (`PartitionList.dfy`): conversion and write-back on objects that may
  be aliased.
- **The performance tool** (`StatsScan.dfy`, `DeliveryAccounting.dfy`).

Programs that work by changing things are classes and methods with loops, each proved to
do to its state what a specification function says; the laws are lemmas about those
functions over all inputs and all runs. Library calls, clocks, signals and the network are
parameters: an `Oracle` or `Calls` value says how each call of a step ends.

## What the proofs show about the code

- A revoke whose commit was aborted, or whose assignment was lost, does not rewind the
  partitions the member keeps (`examples/transactions.c:379-408` drops the result of
  `commit_transaction`). With cooperative rebalancing such partitions can have output in
  the aborted transaction. `ExactlyOnceIffClean` gives the exact condition. Every step that
  violates it skips a message (`UncleanStepSkips`). From then on, whichever comes first
  decides: a commit that takes effect loses the message for good, while a rewind, giving the
  partition up or ending the process puts it right (`StepDecides`, `SkippedUntilDecided`).
  `LosingRunLosesAMessage` is a run of eight events.
- `rd_kafka_seek` with timeout 0 only asks for the seek
  (`examples/transactions-older-broker.c:263-273`, `src/rdkafka.c:4776-4822`). A commit due
  in the same turn as a rewind (lines 653-658) can therefore still see the old position and
  move the group past messages without output; nothing is ever committed twice.
  `OlderBrokerProofs.ExactlyOnceIffClean` gives the exact condition,
  `ServedRunsAreExactlyOnce` the guarantee when seeks take effect in time. If the process
  then leaves the partition, the message is lost for good
  (`UncleanTurnThenLeavingLosesForGood`); if it goes on, committed offsets can go back
  (`StepGoesBackIff`).
- The verifiable consumer drops messages past its limit after the library has stored their
  offsets, so a later commit can announce an offset that no report covers
  (`examples/kafkatest_verifiable_client.cpp:443-445`). `BackedIffNeverOverruns` says
  exactly when; without a limit it never happens.
- The transactional ids of one topic's partitions collide exactly when the id of the last
  partition does not fit 255 characters (`IdsDistinctIffLastFits`), or through negative
  partition numbers (`FittingIdsClashIff`).
- The average of the statistics scan is the floored mean exactly if the sum fits 64 bits
  (`MeanIffSumFits`); the exit code of the performance tool ignores messages still in
  flight (`ExitCodeIff`).
- Where comments and code disagree the model follows the code: a commit is due after more
  than 100 messages, not 100 (`examples/transactions.c:621-623`); consumption is reported
  every 1000 messages, not 100 (`examples/kafkatest_verifiable_client.cpp:319-326`); a
  printed address survives 31 further calls (`src/rdaddr.c:39-46`, `src/rdaddr.h` says 32
  calls without wrapping, counting its own).

## Model

| member | source | states |
|---|---|---|
| MessageFunction.FindNextInt | examples/transactions.c:490-510 | the scan finds the next maximal digit run, or none exactly if there is no digit left; the value is the run's, as a 32-bit `int` |
| MessageFunction.SumIntegers | examples/transactions.c:535-537 | the summing loop ends and gives the `unsigned long` sum over the digit runs of the payload |
| MessageFunction.RunsAreTheMaximalRuns | examples/transactions.c:490-510 | the runs visited are exactly the maximal digit runs, each once and in order |
| MessageFunction.SumIsTotal | examples/transactions.c:535-537 | if each run fits `int` and the total fits `unsigned long`, the sum is the mathematical total of the decimal values |
| MessageFunction.EmitsTheTotal | examples/transactions.c:529-555 | the emitted record carries the input key and the decimal total, or nothing is emitted when the total is zero |
| MessageFunction.SumWraps | examples/transactions.c:535-537 | whatever overflows, the sum is that of the C `int` values of the runs modulo 2^64 |
| MessageFunction.EmitsTheSum | examples/transactions.c:529-555 | for every message: the input key with the numeral of that sum, or nothing if it is zero |
| MessageFunction.PrintedSumFits | examples/transactions.c:527-543 | every sum printed fits the 64-byte buffer |
| MessageFunction.EmittedValueIsAFixpoint | examples/transactions.c:490-543 | feeding a printed non-zero value in `int` range back emits the same value |
| MessageFunction.ToIntStep | examples/transactions.c:496-500 | collecting digits in a 32-bit `int` gives the run's value modulo 2^32 at every step |
| ExactlyOnceShape.TurnKeepsShape | examples/transactions.c:618-630 | after the loop top nothing is counted, or at most 100 messages are and the last commit is less than five seconds old |
| ExactlyOnceShape.CommitOutcome | examples/transactions.c:241-332 | commit publishes everything and the positions and reports 1, or leaves what is committed alone and reports 0 with no transaction open, or ends the process |
| ExactlyOnceShape.AbortAndRewindEffect | examples/transactions.c:214-232 | abort and rewind leaves what is committed alone and ends in a fresh transaction, reading from the committed offsets unless there was no assignment to query |
| ExactlyOnceShape.CommitAndStartNewEffect | examples/transactions.c:337-351 | afterwards a fresh transaction is open; either all was published or the consumer was rewound |
| ExactlyOnceShape.EndTransactionEffect | examples/transactions.c:379-400 | what a revoke does before giving partitions back: published exactly if not lost and committed, and the consumer is where it was in either case |
| ExactlyOnceShape.StepKeepsShape | examples/transactions.c:166-655 | every step keeps positions valid, typestate and bounds |
| ExactlyOnceGuards.CommitAnswers | examples/transactions.c:241-332 | told from the state before and the outcomes of the calls alone: when the commit returns 1, when it returns 0, when the process ends, and when the transaction takes effect on the brokers |
| ExactlyOnceGuards.TurnAnswers | examples/transactions.c:337-351 | the same for commit, rewind and begin |
| ExactlyOnceGuards.RevokeAnswers | examples/transactions.c:379-408 | the same for the revoke branch |
| ExactlyOnceEffects.CommitStep | examples/transactions.c:241-332 | the whole state after a commit, for every way the calls can end: offsets and output published together or not at all, the consumer untouched, no transaction open, or the process ended |
| ExactlyOnceEffects.RollbackStep | examples/transactions.c:214-232 | the whole state after abort and rewind: every assigned partition at its committed offset or the beginning, without a position, in a new empty transaction; or the process ended |
| ExactlyOnceEffects.CommitAndStartStep | examples/transactions.c:337-351 | the same for commit, rewind where the commit returned 0, and begin |
| ExactlyOnceEffects.MisuseIsSeen | examples/transactions.c:154-351 | a begin inside, or a commit or abort outside a transaction is exactly what ends a process with the mark of misuse, so that its absence in every run means something |
| ExactlyOnceEffects.TurnStep | examples/transactions.c:618-630 | the loop top commits if and only if there are more than 100 messages, or some and the last commit is five seconds old; then count and clock start anew, and otherwise nothing changes |
| ExactlyOnceEffects.RevokeStep | examples/transactions.c:379-408 | after a revoke exactly the partitions given are out of the assignment, the positions and the ownership, whether the commit went through, was rolled back or the assignment was lost; the others keep their place |
| ExactlyOnceEffects.AssignStep | examples/transactions.c:367-377 | partitions given join at the committed offset or the beginning; those the member already has, and all positions, stay as they are |
| ExactlyOnceEffects.AcceptedStep | examples/transactions.c:632-655 | a message whose output is taken, or that has none: cursor, position, count and transaction advance by it and nothing else changes |
| ExactlyOnceEffects.RejectedStep | examples/transactions.c:546-655 | a message whose output is refused: everything is rolled back, its own partition rewound with the others, and the message is counted all the same |
| ExactlyOnceEffects.StopStep | examples/transactions.c:657-664 | closing always ends the process; its transaction takes effect exactly if there is an assignment, it was not lost and the commit takes effect |
| ExactlyOnceEffects.StartStep | examples/transactions.c:127-616 | a new process has no assignment, zero counters and an empty transaction, and everything committed is as it was |
| ExactlyOnceRefinement.EveryRunKeepsShape | examples/transactions.c:214-655 | in every run: begin never inside, commit and abort never outside a transaction, the open transaction covers at most `msgcnt` and 101 messages |
| ExactlyOnceRefinement.PublishSettles | examples/transactions.c:249-311 | publishing a transaction makes committed output the function of the input up to the new offsets |
| ExactlyOnceRefinement.TurnRefines | examples/transactions.c:618-630 | a loop top keeps the refinement exactly if it is clean |
| ExactlyOnceRefinement.RevokeRefines | examples/transactions.c:379-408 | a revoke does exactly if no kept partition had output in a transaction it aborted |
| ExactlyOnceRefinement.AssignRefines | examples/transactions.c:367-377 | an assign keeps the refinement: new partitions are read from the committed offset or the beginning |
| ExactlyOnceRefinement.MessageRefines | examples/transactions.c:519-655 | processing a message keeps the refinement, also when the output is refused and rolled back, exactly if it is clean |
| ExactlyOnceRefinement.OthersRefine | examples/transactions.c:30-41 | commits by other members of partitions this one does not own keep the refinement |
| ExactlyOnceRefinement.CloseRefines | examples/transactions.c:657-664 | closing the consumer and ending the process keeps it |
| ExactlyOnceRefinement.StepRefinesIffClean | examples/transactions.c:166-655 | from a refining state a step leads to a refining state if and only if it is clean |
| ExactlyOnceRefinement.ExactlyOnceIffClean | examples/transactions.c:166-655 | exactly-once over every run from every input: all states refine the specification if and only if all steps are clean |
| ExactlyOnceSafety.StepIsAtomic | examples/transactions.c:249-252 | committed offsets and committed output change together or not at all, also when the process ends in the middle of a step |
| ExactlyOnceSafety.StepExtends | examples/transactions.c:241-332 | committed output is only appended to, beyond the committed offsets, which never go back |
| ExactlyOnceSafety.StepIsSound | examples/transactions.c:357-414 | no step commits an output twice, out of order, or one that is not the output of an input message before the committed offset |
| ExactlyOnceSafety.EveryRunIsSound | examples/transactions.c:166-655 | the same of every run, whatever fails |
| ExactlyOnceSafety.NoDuplicates | examples/transactions.c:357-414 | in no run is the output of an input message committed twice |
| ExactlyOnceSafety.LossIsPermanent | examples/transactions.c:395-406 | a message passed over without its output stays lost in every continuation |
| ExactlyOnceScenarios.WellBehavedRunsAreExactlyOnce | examples/transactions.c:357-414 | exactly-once for every run in which each revoke that finds its transaction aborted hands back the whole assignment and assignments can be queried |
| ExactlyOnceScenarios.CrashRecovery | examples/transactions.c:127-159 | after a crash in any reachable state and a restart with the same id, nothing committed is different, and every assigned partition is read from its committed offset into an empty transaction, in step with what is committed; so a skip not yet committed is healed |
| ExactlyOnceScenarios.FaultFreeCommit | examples/transactions.c:618-630 | a due commit without faults commits everything read: offsets are the cursors, output is complete up to them |
| ExactlyOnceLoss.UncleanStepSkips | examples/transactions.c:166-655 | every unclean step, of the loop top, the revoke or the processing of a message, leaves the consumer past a message whose output is nowhere |
| ExactlyOnceLoss.StepDecides | examples/transactions.c:166-655 | from such a state, for every event: the message is lost if and only if the step commits, and stays skipped if and only if the step neither commits nor rewinds, gives the partition up, ends the process, or sees another member process it |
| ExactlyOnceLoss.SkippedUntilDecided | examples/transactions.c:166-655 | over every run: skipped as long as nothing decides, and lost for good if a commit comes before a restoring step |
| ExactlyOnceLoss.RestoredOnce | examples/transactions.c:166-207 | if a restoring step comes first, there is a moment at which the message is neither skipped nor lost |
| ExactlyOnceLoss.UncleanStepLosesMessages | examples/transactions.c:166-655 | after every unclean step there is a message that every continuation loses in which a commit takes effect before the partition is restored |
| ExactlyOnceLoss.CommitLosesTheSkipped | examples/transactions.c:618-630 | any due commit that goes through, whatever the outcomes of the other calls, loses a skipped message |
| ExactlyOnceLoss.UncleanRevokeLosesMessages | examples/transactions.c:379-408 | a revoke that rolls back output of a partition it keeps loses it in every continuation in which a commit takes effect before the partition is restored |
| ExactlyOnceLoss.LosingRunLosesAMessage | examples/transactions.c:395-408 | a concrete run that loses a message |
| TransactionsApplication.Application.RewindConsumer | examples/transactions.c:166-207 | the loop over the assignment seeks every partition to its committed offset or the beginning, as the step function says |
| TransactionsApplication.Application.AbortTransactionAndRewind | examples/transactions.c:214-232 | aborts, rewinds and begins again, or ends the process at the call that fails, with the state the step function gives in each case |
| TransactionsApplication.Application.CommitTransaction | examples/transactions.c:241-332 | new state and return value are those of the step function on every error path |
| TransactionsApplication.Application.CommitTransactionAndStartNew | examples/transactions.c:337-351 | rewinds exactly if the commit returned 0, then begins, with the state the step function gives |
| TransactionsApplication.Application.OnAssign | examples/transactions.c:367-377 | the partitions given join the assignment, each at its committed offset or the beginning, and the others keep their place |
| TransactionsApplication.Application.OnRevoke | examples/transactions.c:379-408 | ends the transaction, by abort if the assignment was lost and by commit otherwise, begins a new one and takes exactly the partitions given out of assignment, positions and ownership, without a rewind whatever the commit returned |
| TransactionsApplication.Application.ProcessMessage | examples/transactions.c:519-572 | the scanning, summing, printing and producing code offers exactly the output of the message function, with retries and roll-back |
| TransactionsApplication.Application.TopOfLoop | examples/transactions.c:618-630 | commits exactly if messages were counted and there are more than 100 or five seconds have passed, and then starts counting anew |
| TransactionsApplication.Application.OnMessage | examples/transactions.c:632-655 | one message is taken, processed and counted, in this order, unless the process ends |
| TransactionsApplication.Application.Close | examples/transactions.c:657-664 | the whole assignment is revoked, if there is one, and the process ends |
| TransactionsApplication.Application.Start | examples/transactions.c:127-616 | a new process rolls back what its predecessor left open and begins a transaction |
| TransactionsApplication.Application.RunEvents | examples/transactions.c:575-665 | the program run on any events ends in the state of the step system, is sound, and refines exactly-once if the run was clean |
| OlderBrokerProofs.RewindOnlyTouches | examples/transactions-older-broker.c:230-280 | abort and rewind of one partition changes nothing held or committed of any other |
| OlderBrokerProofs.CommitOnlyTouches | examples/transactions-older-broker.c:286-355 | neither does a commit |
| OlderBrokerProofs.ProcessOnlyTouches | examples/transactions-older-broker.c:533-584 | neither does processing a message |
| OlderBrokerProofs.MessageOnlyTouches | examples/transactions-older-broker.c:613-659 | neither does a whole turn of the main loop, and it leaves its partition in shape |
| OlderBrokerProofs.PublishInStep | examples/transactions-older-broker.c:296-347 | committing with the consumer's real position keeps the partition's committed output the function of its committed input |
| OlderBrokerProofs.PublishStale | examples/transactions-older-broker.c:302-347 | committing with a position from before a rewind breaks it |
| OlderBrokerProofs.CommitRefines | examples/transactions-older-broker.c:286-355 | a commit keeps the partition refined if and only if it does not publish a stale position |
| OlderBrokerProofs.MessageRefines | examples/transactions-older-broker.c:613-659 | a turn keeps its partition refined if and only if it is clean |
| OlderBrokerProofs.StepRefinesIffClean | examples/transactions-older-broker.c:230-659 | a step keeps the refinement of all partitions if and only if it is clean |
| OlderBrokerProofs.EveryRunKeepsShape | examples/transactions-older-broker.c:365-659 | in every run every assigned partition has a producer inside a transaction of its own outputs only, and at most 100 messages counted, and no transactional call is made in the wrong state |
| OlderBrokerProofs.ExactlyOnceIffClean | examples/transactions-older-broker.c:230-659 | exactly-once per partition over every run, if and only if no turn commits with a position from before a rewind not carried out |
| OlderBrokerProofs.ServedRunsAreExactlyOnce | examples/transactions-older-broker.c:263-273 | exactly-once for every run whose seeks take effect before the position is asked for |
| OlderBrokerEffects.RewindStep | examples/transactions-older-broker.c:230-280 | the whole state after abort and rewind: the partition is at its committed offset, or at the beginning if there is none, in an empty transaction, or the process has ended |
| OlderBrokerEffects.CommitAnswers | examples/transactions-older-broker.c:286-355 | told from the partition, the fencing and the outcomes of the calls: when a commit takes effect and when it is rolled back |
| OlderBrokerEffects.CommitStep | examples/transactions-older-broker.c:286-355 | the whole state after a commit on every path |
| OlderBrokerEffects.TurnStep | examples/transactions-older-broker.c:613-659 | the whole state after a turn of the main loop, in closed form: the message read and its output pending, or the partition rewound; counted; and, if more than 100 are counted or five seconds have passed, committed with count and clock started anew |
| OlderBrokerEffects.AssignStep | examples/transactions-older-broker.c:379-409 | each partition given, and no other, is in an empty transaction at its committed offset, or where the reset policy says, with count zero |
| OlderBrokerEffects.MisuseIsSeen | examples/transactions-older-broker.c:230-355 | a call outside a transaction is exactly what ends a process with the mark of misuse |
| OlderBrokerSafety.PublishIsSound | examples/transactions-older-broker.c:286-355 | a commit appends genuine output above all that was committed of the partition, also with a stale position |
| OlderBrokerSafety.StepIsSound | examples/transactions-older-broker.c:230-659 | no step commits an output of any partition twice, out of order, or one that is not the output of an input message before the committed offset |
| OlderBrokerSafety.EveryRunIsSound | examples/transactions-older-broker.c:230-659 | the same of every run, whatever fails and whenever seeks take effect |
| OlderBrokerSafety.NoDuplicates | examples/transactions-older-broker.c:365-659 | in no run is the output of an input message committed twice |
| OlderBrokerLoss.UncleanTurnLoses | examples/transactions-older-broker.c:648-658 | every unclean turn commits the offset after the message it refused, whose output is not committed, while the partition is back at the offset committed before, or the beginning |
| OlderBrokerLoss.AbandonedForGood | examples/transactions-older-broker.c:230-659 | a message passed without output that the process will not read again stays lost in every continuation |
| OlderBrokerLoss.UncleanTurnThenLeavingLosesForGood | examples/transactions-older-broker.c:411-433 | an unclean turn followed by a crash, a revoke or a fencing loses the refused message in every continuation |
| OlderBrokerLoss.StepGoesBackIff | examples/transactions-older-broker.c:302-347 | a committed offset goes back in a step if and only if the step is a turn that sends an offset, told by its guards, and its message lies further behind than the last one before the committed offset |
| OlderBrokerLoss.UncleanTurnPutsAhead | examples/transactions-older-broker.c:648-658 | an unclean turn after more than one message since the last commit puts the committed offset ahead, and the next turn that sends an offset takes it back |
| OlderBrokerLoss.CleanRunsNeverGoBack | examples/transactions-older-broker.c:230-659 | in a clean run no committed offset is ever lower than at an earlier moment |
| OlderBrokerFrame.TurnFramed | examples/transactions-older-broker.c:613-659 | a turn run on its partition alone does to it, to the brokers and to the process what it does among the others |
| OlderBrokerProofs.StaleRunSkipsAMessage | examples/transactions-older-broker.c:648-658 | a concrete run whose committed offset passes a message without output |
| OlderBrokerApplication.Application.Find | examples/transactions-older-broker.c:635-643 | the lookup finds the state of a partition exactly if the consumer reads it, so the missing-producer branch is not reached |
| OlderBrokerApplication.Application.AddPartition | examples/transactions-older-broker.c:386-402 | one more entry, state and live producer, in bijection and pointing at each other, the others as they were |
| OlderBrokerApplication.Application.OnAssign | examples/transactions-older-broker.c:379-409 | every partition given has its entry, state and producer in an open transaction, in list order; what the step system sees is its own assignment step |
| OlderBrokerApplication.Application.DestroyProducers | examples/transactions-older-broker.c:415-425 | no producer is left alive, all are out of their transactions with nothing pending |
| OlderBrokerApplication.Application.OnRevoke | examples/transactions-older-broker.c:411-433 | nothing is left of the assignment, on the heap, in the consumer or in what the step system sees |
| OlderBrokerApplication.Application.AbortTransactionAndRewind | examples/transactions-older-broker.c:230-280 | does to the state's partition what the step function says, seeks it to its committed offset or the beginning, and does nothing to what the consumer has of others |
| OlderBrokerApplication.Application.CommitTransactionAndStartNew | examples/transactions-older-broker.c:286-355 | the same for the commit, on every error path |
| OlderBrokerApplication.Application.SendOffsetsAndCommit | examples/transactions-older-broker.c:312-347 | the two calls are rolled back, fatal or take effect exactly when the specification says |
| OlderBrokerApplication.Application.ProcessMessage | examples/transactions-older-broker.c:533-584 | the same for processing a message |
| OlderBrokerApplication.Application.HandleMessageOf | examples/transactions-older-broker.c:645-659 | the same for the main loop from the lookup on |
| OlderBrokerApplication.Application.OnMessage | examples/transactions-older-broker.c:613-659 | a turn of the main loop on the heap is the step of the whole step system, and the data structure is kept |
| OlderBrokerApplication.Application.Serve | examples/transactions-older-broker.c:365-659 | over any run of rebalances, messages, failures, crashes and restarts the heap program is where the step system is: the data structure stays in bijection, no process ends by a missing producer or a call in the wrong state, no output is committed twice, and processing is exactly-once if the run was clean |
| OlderBrokerApplication.StaysInTransaction | examples/transactions-older-broker.c:613-659 | a turn leaves its producer inside a transaction |
| Names.NameInjective | examples/kafkatest_verifiable_client.cpp:70-74 | `topic.partition` determines topic and partition, for all integers |
| Names.NameSplits | examples/kafkatest_verifiable_client.cpp:70-74 | a key taken apart at its last dot is the topic and the decimal partition number |
| Names.FittingIdsClashIff | examples/transactions-older-broker.c:157-163 | two ids that fit are equal exactly for the same partition or for a negative number against a topic that ends in a dash |
| Names.IdsDistinctIffLastFits | examples/transactions-older-broker.c:157-163 | the n partitions of a topic have n different ids exactly if the id of the last one fits the buffer |
| Names.ShortTopicsAreSafe | examples/transactions-older-broker.c:157-163 | with topics of up to 206 characters it does, for all 32-bit partition numbers |
| VerifiableConsumerProofs.EveryRunAccounts | examples/kafkatest_verifiable_client.cpp:321-536 | in every run: counters ordered, every announced commit preceded by a report of all messages, fewer than 1000 unreported and, without auto commit, uncommitted messages, limit kept |
| VerifiableConsumerProofs.ReportsFirstAt | examples/kafkatest_verifiable_client.cpp:356-387 | at every announced commit the counts printed before it sum to the messages taken before it |
| VerifiableConsumerProofs.StepAccounts | examples/kafkatest_verifiable_client.cpp:321-536 | each path, timeout, message, callback and rebalance, keeps all this |
| VerifiableConsumerProofs.Conservation | examples/kafkatest_verifiable_client.cpp:448-468 | the messages counted per partition sum to the messages counted |
| VerifiableConsumerProofs.SetupAgrees | examples/kafkatest_verifiable_client.cpp:113-119 | the assertions on topic and partition hold for every message of every history |
| VerifiableConsumerProofs.StepIsBacked | examples/kafkatest_verifiable_client.cpp:356-536 | as long as what the library has stored is covered, no commit announced reaches past the offsets reported before it, whichever earlier stored offset it commits |
| VerifiableConsumerProofs.StepCovers | examples/kafkatest_verifiable_client.cpp:435-472 | what is stored stays covered if and only if the input is no message past the limit with a new offset, and once it is not covered it never is again |
| VerifiableConsumerProofs.CoveredIffNeverOverruns | examples/kafkatest_verifiable_client.cpp:435-472 | the same over every run |
| VerifiableConsumerProofs.RunsAreBacked | examples/kafkatest_verifiable_client.cpp:356-536 | the same over every run without such a message |
| VerifiableConsumerProofs.UnlimitedRunsAreBacked | examples/kafkatest_verifiable_client.cpp:356-536 | without a limit it holds of every run |
| VerifiableConsumerProofs.CommitsBackedIffCovered | examples/kafkatest_verifiable_client.cpp:396-420 | every commit the library may answer next is covered by reports if and only if the stored offsets are |
| VerifiableConsumerProofs.BackedIffNeverOverruns | examples/kafkatest_verifiable_client.cpp:356-536 | a run has announced no offset past the reports, and can announce none with its next commit, if and only if no message past the limit had a new offset |
| VerifiableConsumerProofs.LimitedRunIsNotBacked | examples/kafkatest_verifiable_client.cpp:443-445 | a family of runs with a limit of one that announce an offset never reported |
| VerifiableConsumerLines.StepIs | examples/kafkatest_verifiable_client.cpp:321-536 | what every input does, in closed form: at most one report, of everything unreported; a report and a commit after a message exactly at their 1000; every commit after the report and announced before it returns; a revoke announced after its commit |
| VerifiableConsumerLines.RunPrints | examples/kafkatest_verifiable_client.cpp:423-536 | in every run the lines each input calls for stand on standard output right after those printed before it |
| VerifiableConsumerLines.RevokeCommitsFirst | examples/kafkatest_verifiable_client.cpp:522-543 | whatever the history, a revoke commits, announces the commit and then announces the revoke, as the last three things |
| VerifiableConsumerLines.FinalCommitCommits | examples/kafkatest_verifiable_client.cpp:396-432 | so do a timeout and the commit at the end |
| VerifiableConsumerLines.LargestIs | examples/kafkatest_verifiable_client.cpp:336-346 | a report lists exactly the partitions a message was taken of, and its largest offset is the largest one taken |
| VerifiableConsumerLines.SmallestIs | examples/kafkatest_verifiable_client.cpp:336-346 | its smallest offset is that of the first message taken since the last report, and -1 exactly if there is none |
| VerifiableConsumerLines.NamesAre | examples/kafkatest_verifiable_client.cpp:113-119 | topic and partition of an entry are those of every message taken under its key |
| VerifiableClient.Consumer.CollectRanges | examples/kafkatest_verifiable_client.cpp:336-346 | prints first-since-report and largest offset of every known partition, and resets the former |
| VerifiableClient.Consumer.ReportRecordsConsumed | examples/kafkatest_verifiable_client.cpp:321-351 | the report made from counters is the one counted out of the history |
| VerifiableClient.Consumer.OnOffsetsCommitted | examples/kafkatest_verifiable_client.cpp:356-387 | reports first, then announces |
| VerifiableClient.Consumer.DoCommit | examples/kafkatest_verifiable_client.cpp:396-420 | commits exactly when the history says it is due; an immediate commit is the last line printed and leaves no message uncommitted |
| VerifiableClient.Consumer.Count | examples/kafkatest_verifiable_client.cpp:448-468 | the entry of the message's partition, and no other, follows the history; the assertions of `setup` hold |
| VerifiableClient.Consumer.OnMessage | examples/kafkatest_verifiable_client.cpp:435-472 | takes, reports, commits or drops a message as the history says |
| VerifiableClient.Consumer.OnRebalance | examples/kafkatest_verifiable_client.cpp:522-543 | reports, commits before a revoke, then announces the change: the last two lines after a revoke are the commit, if it had offsets, and the revoke, and no message is left uncommitted |
| VerifiableClient.Consumer.HandleAll | examples/kafkatest_verifiable_client.cpp:423-536 | over any run the counters, the map and the output are those of the history: accounting, the counts of the map summing to the total, the lines every input calls for standing where they belong, and, if the limit was never overrun, commits backed by reports |
| VerifiableProducer.Producer.Deliver | examples/kafkatest_verifiable_client.cpp:248-265 | a report moves one message from the queue to one line of output with its verdict and one counter, and keeps every number on one line or in the queue |
| VerifiableProducer.Producer.Iterate | examples/kafkatest_verifiable_client.cpp:814-855 | however many retries, an iteration adds one to sent or one refusal with its line, and keeps the books balanced |
| VerifiableProducer.Producer.Send | examples/kafkatest_verifiable_client.cpp:811-871 | acknowledged, errored and queued messages make up the iterations, those sent are those accepted; when the queue is empty every message has exactly one line of output |
| VerifiableProducer.PollServes | examples/kafkatest_verifiable_client.cpp:248-265 | every report about a queued message gives one line with its verdict and one count, in the order served |
| VerifiableProducer.PollsServe | examples/kafkatest_verifiable_client.cpp:855-860 | several polls serve what one with all their reports would, as in the retries and in the loop that waits |
| VerifiableProducer.IteratedSends | examples/kafkatest_verifiable_client.cpp:814-855 | an iteration serves the reports of its retries, then offers the message, then serves those of the last poll; the message is counted as sent or has its error line |
| VerifiableProducer.RunBalances | examples/kafkatest_verifiable_client.cpp:811-855 | over any turns every number is on exactly one line or once in the queue, and the counters count lines and accepted messages |
| VerifiableProducer.RunSends | examples/kafkatest_verifiable_client.cpp:811-855 | messages counted as sent are those whose produce call was accepted |
| Address.UnbracketedIsNodeAndService | src/rdaddr.c:119-148 | an accepted unbracketed text is its node, and a colon and the service if there is one, whatever byte precedes the text; longer nodes are cut at 255 |
| Address.BracketedBeginsWithNode | src/rdaddr.c:116-148 | a bracketed text begins with its non-empty node in brackets and ends with its service |
| Address.RefusedIff | src/rdaddr.c:116-134 | refused for a missing bracket exactly if the text opens one and has none closing; for the service exactly if there is a last colon, after a closing bracket in a bracketed text, that follows no colon and precedes 64 characters or more |
| Address.ParseIs | src/rdaddr.c:106-153 | what every other text is split into: the service is what follows the last colon, if that follows no colon and precedes something; the node is what the brackets enclose, or all before the service, cut at 255 |
| Address.RoundTrip4Iff | src/rdaddr.c:86-148 | `host:port` reads back if and only if the host does not begin with a bracket or end with a colon; for the empty host, if the byte before is no colon |
| Address.RoundTrip6Iff | src/rdaddr.c:54-148 | `[host]:port` reads back if and only if the host is not empty and has no closing bracket |
| AddressBuffers.PrintedReadsBackIff | src/rdaddr.c:36-148 | whatever is printed whole with the port and without the family reads back as what was looked up, under exactly these conditions |
| AddressBuffers.TextParts | src/rdaddr.c:36-103 | for all flags: the host alone, with port in one of the two forms, the family in front of either; and a fixed text for other families and failed lookups |
| AddressBuffers.StableFor31 | src/rdaddr.c:39-46 | a returned text is unchanged through the next 31 calls |
| AddressBuffers.OverwrittenBy32nd | src/rdaddr.c:39-46 | the 32nd call overwrites it |
| AddressBuffers.Statics.Strrchr | src/rdaddr.c:129 | the scan finds the last occurrence |
| AddressBuffers.Statics.Prepare | src/rdaddr.c:106-153 | the buffers hold the parsed node and service, or nothing on error |
| AddressBuffers.Statics.SockaddrToString | src/rdaddr.c:36-103 | on every path, error included, only the next buffer changes; the lookup is retried at most once, and only by number |
| PartitionList.RoundTripIff | src-cpp/HandleImpl.cpp:383-405 | to C and back is the identity with the error reset, exactly for topics without NUL |
| PartitionList.RoundTripOfC | src-cpp/rdkafkacpp_int.h:1258-1268 | from C and back is the identity with the error reset |
| PartitionList.FromCInjective | src-cpp/rdkafkacpp_int.h:1258-1268 | no field of a C element is lost, the error included |
| PartitionList.PartitionsToCParts | src-cpp/HandleImpl.cpp:383-405 | the list has the converted entries in order, field by field, with no error set |
| PartitionList.CPartsToPartitions | src-cpp/HandleImpl.cpp:207-213 | fresh, distinct objects in order, with topic, partition, offset, error, epoch and metadata of their elements |
| PartitionList.UpdatePartitionsFromCParts | src-cpp/HandleImpl.cpp:411-434 | every object, aliased or not, has offset, error and epoch of its last match and metadata of the last match that has any; others are unchanged |
| PartitionList.UpdatedIs | src-cpp/HandleImpl.cpp:411-434 | the specification field by field, by the last element with the key and the last one with metadata; an entry without either keeps what it has |
| PartitionList.Idempotent | src-cpp/HandleImpl.cpp:411-434 | writing back twice is writing back once |
| PartitionList.WriteBackOfOwnList | src-cpp/HandleImpl.cpp:383-434 | writing back the unchanged list of a vector without duplicate keys only resets errors |
| PartitionList.WriteBackOfOwnElements | src-cpp/HandleImpl.cpp:207-434 | writing a list back to the entries made from it changes nothing, errors included, for distinct keys |
| PartitionList.DuplicatesFollowTheLast | src-cpp/HandleImpl.cpp:383-434 | with duplicates, the last entry of a key decides offset and epoch |
| StatsScan.FindsTheFirst | examples/rdkafka_performance.c:430-437 | the substring search gives the first occurrence, or none if there is none |
| StatsScan.ReadNumberIs | examples/rdkafka_performance.c:444-446 | the number read is the decimal value of all the digits there, the largest 64-bit value if they are too many, its negative modulo 2^64 after a minus sign; nothing is read exactly if there is no numeral |
| StatsScan.PrintedNumberIsRead | examples/rdkafka_performance.c:444-446 | every 64-bit number printed in decimal is read back as it was |
| StatsScan.SearchEndsIff | examples/rdkafka_performance.c:430-454 | the search ends without a number exactly if the first field does not occur any more |
| StatsScan.SearchMisses | examples/rdkafka_performance.c:430-438 | without a second field behind the first it goes on behind the first |
| StatsScan.SearchReads | examples/rdkafka_performance.c:430-451 | with both, the numeral behind the second field and any spaces is read, and where there is none the search goes on there |
| StatsScan.ScanReads | examples/rdkafka_performance.c:471-480 | each numeral behind its two fields is the next value kept, if it is at least 100, and the scan goes on behind it |
| StatsScan.HighIs | examples/rdkafka_performance.c:475-477 | the values kept are those of at least 100, each as often as it was sampled |
| StatsScan.HighConcat | examples/rdkafka_performance.c:475-477 | and in the order in which they were sampled: the values kept of two stretches are those of the first, then those of the second |
| StatsScan.KeptIs | examples/rdkafka_performance.c:470-480 | they are the first ones, 100 if there are as many |
| StatsScan.AverageIs | examples/rdkafka_performance.c:479-486 | the average is the sum modulo 2^64 divided by the number of values |
| StatsScan.JsonParseFields | examples/rdkafka_performance.c:421-454 | the loop ends on every text and gives the number the specification reads |
| StatsScan.ValuesAreRead | examples/rdkafka_performance.c:421-454 | a non-zero value is the number after the first second field following an occurrence of the first |
| StatsScan.Collect | examples/rdkafka_performance.c:459-480 | the loop ends although low values do not advance the index, keeps the first at most 100 values of at least 100, and no sample overwrites the total |
| StatsScan.MeanIffSumFits | examples/rdkafka_performance.c:479-486 | the result is the floored mean if and only if the sum fits 64 bits |
| StatsScan.JsonParseStats | examples/rdkafka_performance.c:459-487 | the average of the values kept, 0 if there are none |
| DeliveryAccounting.PollBalances | examples/rdkafka_performance.c:188-264 | serving any reports keeps waiting + delivered + failed equal to the messages counted, and waiting equal to those in flight plus one given up |
| DeliveryAccounting.PollCounts | examples/rdkafka_performance.c:188-202 | good reports are counted as delivered and bad ones as failed, one message in flight each, and no other counter changes |
| DeliveryAccounting.PollStopsIff | examples/rdkafka_performance.c:245-257 | a poll ends the run exactly if it serves the last report due of all messages asked for |
| DeliveryAccounting.RetryBalances | examples/rdkafka_performance.c:1473-1514 | while messages are left to produce, no poll ends the run |
| DeliveryAccounting.TurnBalances | examples/rdkafka_performance.c:1445-1536 | a turn counts one message whatever becomes of it, and the books balance |
| DeliveryAccounting.RetryCounts | examples/rdkafka_performance.c:1473-1514 | each queue-full answer is counted as an error and the reports of the poll after it are served |
| DeliveryAccounting.TurnServes | examples/rdkafka_performance.c:1445-1536 | a turn serves the reports of its retries and those after the message, as many as messages are in flight, counting each for what it says |
| DeliveryAccounting.PollsServe | examples/rdkafka_performance.c:1538-1546 | the waiting loop serves the reports of all its polls in order |
| DeliveryAccounting.TurnCounts | examples/rdkafka_performance.c:1445-1536 | a turn counts every queue-full answer and refusal as an error, and goes on exactly if the message was accepted, no signal came and the last report due was not served |
| DeliveryAccounting.CounterStopIff | examples/rdkafka_performance.c:245-257 | the callback ends the run exactly when a number of messages was asked for, all are counted and the last report due was served |
| DeliveryAccounting.ExitCodeIff | examples/rdkafka_performance.c:1549-1571 | the exit code is zero exactly if no delivery failed and no produce call gave up |
| DeliveryAccounting.Performance.OnDelivered | examples/rdkafka_performance.c:188-257 | the callback counts a good report as delivered and a bad one as failed: the two counters stay the tallies of all reports served |
| DeliveryAccounting.Performance.ProduceAll | examples/rdkafka_performance.c:1443-1536 | the loop takes turns as long as it may; over any turns the books balance, the counters tally the reports served, no more messages are counted than asked for, and the last call gave up exactly if its answer says so |
| DeliveryAccounting.Performance.Finish | examples/rdkafka_performance.c:1538-1571 | polls until the run ends; the exit code is zero exactly if every report of the run was good and no call gave up; a counter-based stop means all were counted and reported |
| DeliveryAccounting.Performance.RunProducer | examples/rdkafka_performance.c:1443-1571 | from start to end: the exit code is zero if and only if every report served was good and the last answer was an acceptance; reports, messages in flight and one given up make up the messages counted |

## Left out

- The C library behind the calls: brokers, coordinators and protocol are contracts. After an
  assign or a seek a partition has no position until its next message
  (`src/rdkafka_partition.c:1972-1975`), and offsets without a position are not sent
  (`src/rdkafka_txnmgr.c:2019-2026`).
- Offsets are dense and logs are never cut: no retention, compaction or gaps.
- Sending offsets and committing a transaction are one step against the other group
  members; a new owner reads offsets of a partition only when no transaction on them is
  pending.
- Other group members and other applications are environment steps that process correctly;
  they are not copies of the program.
- Per-partition errors of `rd_kafka_committed` and `rd_kafka_seek_partitions`: the programs
  never read them, and the model has none.
- A failed abort or begin ends the process, as in the programs; what the brokers do with the
  transaction then is decided by the next start.
- MessageFunction.FindNextInt: signed overflow, undefined in C, wraps as in two's complement.
- Counters are unbounded integers, except where a 64-bit sum or a 32-bit value is the point.
- `auto.offset.reset` of the older-broker example is not set; the first offset of a partition
  without a committed one is the environment's choice.
- OlderBrokerProofs.StaleRunSkipsAMessage: shows the committed offset passing a message; the
  program may still read that message again unless it leaves the partition first.
- VerifiableConsumerProofs.StepIsBacked: the library is taken to commit, for a partition, no
  more than an offset it stored at some time before; which one is left open.
- VerifiableClient.Consumer.CollectRanges: the order in which a report lists its partitions
  (key order) and the JSON text of the lines are not modelled.
- DeliveryAccounting.Performance.ProduceAll: delivery reports are on; bytes, latencies, rate
  limits and `exit_after` are not modelled.
- AddressBuffers.Statics.SockaddrToString: name resolution is a parameter, and a host it
  returns fits its buffer; `rd_getaddrinfo` and sockets are not modelled.
- StatsScan.JsonParseFields: characters are those of the C locale.
- The rest of `src` and `src-cpp`, the admin, basic consumer and producer examples, argument
  parsing, logging, signals and the watchdog: foreign calls around little logic.
