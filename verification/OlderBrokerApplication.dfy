/** The program of examples/transactions-older-broker.c with its heap: the list of
    assigned partitions, one `struct state` per entry hanging off it with a pointer
    back, and one live producer per state. The functions that work on one state are
    proved to do what the step functions do to that partition. */
module OlderBrokerApplication {
  import opened Decimal
  import opened MessageFunction
  import opened OutputStream
  import opened OlderBroker
  import Frame = OlderBrokerFrame
  import Proofs = OlderBrokerProofs
  import Safety = OlderBrokerSafety

  /** A producer handle, made for one input partition. */
  class Handle {
    const partition: Partition
    var txn: Txn
    var pending: seq<Entry>

    constructor (partition: Partition)
      ensures this.partition == partition && txn == InTxn && pending == []
    {
      this.partition, txn, pending := partition, InTxn, [];
    }
  }

  /** An element of a partition list (`rd_kafka_topic_partition_t`). */
  class ListElement {
    const partition: Partition
    var state: PartitionState?      // the `opaque` field

    constructor (partition: Partition)
      ensures this.partition == partition && state == null
    {
      this.partition, state := partition, null;
    }
  }

  /** `struct state` */
  class PartitionState {
    const producer: Handle
    const rktpar: ListElement
    var lastCommit: int
    var msgcnt: nat

    constructor (producer: Handle, rktpar: ListElement, now: int)
      ensures this.producer == producer && this.rktpar == rktpar && lastCommit == now && msgcnt == 0
    {
      this.producer, this.rktpar := producer, rktpar;
      lastCommit, msgcnt := now, 0;
    }
  }

  /** What happens to the program: an assignment, with the order of its list, or any other
      event of the step system. */
  datatype Signal =
    | Assign(partitions: seq<Partition>, reset: map<Partition, nat>, now: int, created: bool)
    | Other(e: Event)

  /** An assignment lists each partition once. */
  predicate Proper(g: Signal) {
    match g
    case Assign(ps, reset, _, _) =>
      && (forall i, j :: 0 <= i < j < |ps| ==> ps[i] != ps[j])
      && (forall i :: 0 <= i < |ps| ==> ps[i] in reset)
    case Other(e) => !e.Assigned?
  }

  function Restricted(ps: seq<Partition>, reset: map<Partition, nat>): map<Partition, nat> {
    map p | p in ps && p in reset :: reset[p]
  }

  function EventOf(g: Signal): Event {
    match g
    case Assign(ps, reset, now, created) => Assigned(Restricted(ps, reset), now, created)
    case Other(e) => e
  }

  function Events(gs: seq<Signal>): seq<Event> {
    if gs == [] then [] else Events(gs[..|gs| - 1]) + [EventOf(gs[|gs| - 1])]
  }

  datatype Answer = RollBack | Ends | TakesEffect

  /** The consumer handle; `origin` is history. */
  datatype Consumer = Consumer(cursor: map<Partition, nat>, position: map<Partition, nat>, origin: map<Partition, nat>)

  class Application {
    var brokers: Brokers
    var consumer: Consumer
    var active: bool
    var assignedPartitions: seq<ListElement>
    var phase: Phase
    ghost var slot: map<Partition, nat>     // where each partition is listed
    ghost var live: set<Handle>             // producers created and not destroyed
    ghost var repr: set<object>

    constructor (log: map<Partition, seq<Record>>)
      ensures phase.Gone? && View() == Initial(Emit, log)
    {
      brokers := Brokers(log, map[], map[], [], {});
      consumer := Consumer(map[], map[], map[]);
      active, assignedPartitions, phase := false, [], Gone(false);
      slot, live, repr := map[], {}, {};
    }

    // ----- the data structure -----

    /** The i-th entry and its state point at each other, and the state has a live
        producer of its own, inside a transaction. */
    ghost predicate Linked(i: nat)
      requires i < |assignedPartitions|
      reads `active, `assignedPartitions, `consumer, `slot, `live, `repr, repr
    {
      var e := assignedPartitions[i];
      && e in repr && e.partition in slot && slot[e.partition] == i
      && e.state != null && e.state in repr && e.state.rktpar == e
      && e.state.producer in repr && e.state.producer in live && e.state.producer.partition == e.partition
      && e.state.producer.txn != Ready
      && e.partition in consumer.cursor && e.partition in consumer.origin
    }

    /** List entries, states and live producers are in bijection with each other and
        with the partitions the consumer reads. */
    ghost predicate Valid()
      reads `active, `assignedPartitions, `consumer, `slot, `live, `repr, repr
    {
      && this !in repr
      && (!active ==> assignedPartitions == [])
      && (forall i :: 0 <= i < |assignedPartitions| ==> Linked(i))
      && (forall p :: p in slot ==> slot[p] < |assignedPartitions| && assignedPartitions[slot[p]].partition == p)
      && (forall p :: p in consumer.cursor ==> p in slot)
      && (forall p :: p in consumer.position ==> p in slot)
      && (forall h :: h in live ==> h.partition in slot && ProducerAt(slot[h.partition], h))
    }

    ghost predicate ProducerAt(i: nat, h: Handle)
      reads `active, `assignedPartitions, `consumer, `slot, `live, `repr, repr
    {
      && i < |assignedPartitions| && assignedPartitions[i] in repr
      && assignedPartitions[i].state != null && assignedPartitions[i].state.producer == h
    }

    /** What the step system sees of a listed partition. */
    ghost function PartAt(p: Partition): Part
      requires Valid() && p in slot
      reads `active, `assignedPartitions, `consumer, `slot, `live, `repr, repr
    {
      assert Linked(slot[p]);
      PartOf(assignedPartitions[slot[p]].state)
    }

    /** What the step system sees of the program: nothing of a process that has ended. */
    ghost function View(): World
      requires phase.Polling? ==> Valid()
      reads this, repr
    {
      if phase.Gone? then World(Emit, brokers, false, map[], phase)
      else World(Emit, brokers, active, map p | p in slot :: PartAt(p), phase)
    }

    /** `rd_kafka_topic_partition_list_find`: the state of a partition of the consumer
        is always found, so the program never misses an output producer. */
    method Find(p: Partition) returns (state: PartitionState?)
      requires Valid()
      ensures p in consumer.cursor <==> state != null
      ensures state != null ==> p in slot && state == assignedPartitions[slot[p]].state && state.rktpar.partition == p
    {
      for i := 0 to |assignedPartitions|
        invariant forall k :: 0 <= k < i ==> assignedPartitions[k].partition != p
      {
        assert Linked(i);
        if assignedPartitions[i].partition == p {
          return assignedPartitions[i].state;
        }
      }
      return null;
    }

    /** The partitions listed are those the consumer reads. */
    lemma SlotsAreRead()
      requires Valid()
      ensures slot.Keys == consumer.cursor.Keys
    {
      forall p | p in slot
        ensures p in consumer.cursor
      {
        assert Linked(slot[p]);
      }
    }

    /** `destroy_transactional_producer` on every producer of the list. */
    method DestroyProducers()
      requires Valid()
      modifies this`live, repr
      ensures live == {}
      ensures forall h :: h in old(live) ==> h.txn == Ready && h.pending == []
    {
      var i := 0;
      while i < |assignedPartitions|
        invariant 0 <= i <= |assignedPartitions|
        invariant forall k :: 0 <= k < |assignedPartitions| ==> assignedPartitions[k].state == old(assignedPartitions[k].state)
        invariant live <= old(live)
        invariant forall h :: h in live ==> i <= slot[h.partition]
        invariant forall h :: h in old(live) && h !in live ==> h.txn == Ready && h.pending == []
      {
        assert old(Linked(i));
        var state := assignedPartitions[i].state;
        state.producer.txn, state.producer.pending := Ready, [];
        live := live - {state.producer};
        forall h | h in live
          ensures i + 1 <= slot[h.partition]
        {
          assert old(ProducerAt(slot[h.partition], h));
        }
        i := i + 1;
      }
      assert forall h :: h in live ==> old(ProducerAt(slot[h.partition], h));
    }

    /** The revoke branch of the rebalance callback: every producer is aborted and
        destroyed, every state freed, and nothing is left of the assignment. */
    method OnRevoke()
      requires Valid() && active && phase.Polling?
      modifies this, repr
      ensures Valid() && !active && live == {} && repr == {} && phase.Polling?
      ensures View() == RevokeCallback(old(View()))
      ensures forall h :: h in old(live) ==> h.txn == Ready && h.pending == []
    {
      SlotsAreRead();
      assert View().parts.Keys == consumer.cursor.Keys;
      DestroyProducers();
      brokers := brokers.(owned := brokers.owned - consumer.cursor.Keys);
      Clear();
    }

    /** Nothing is assigned. */
    method Clear()
      modifies `consumer, `active, `assignedPartitions, `slot, `live, `repr
      ensures Valid() && !active && live == {} && repr == {}
      ensures phase.Polling? ==> View() == World(Emit, brokers, false, map[], phase)
    {
      consumer := Consumer(map[], map[], map[]);
      active, assignedPartitions := false, [];
      slot, live, repr := map[], {}, {};
    }

    /** A list entry with its state and its producer, in a transaction. */
    method NewState(p: Partition, now: int) returns (e: ListElement, state: PartitionState)
      ensures fresh(e) && fresh(state) && fresh(state.producer)
      ensures e.partition == p && e.state == state && state.rktpar == e
      ensures state.producer.partition == p && state.producer.txn == InTxn && state.producer.pending == []
      ensures state.msgcnt == 0 && state.lastCommit == now
    {
      e := new ListElement(p);
      var producer := new Handle(p);
      state := new PartitionState(producer, e, now);
      e.state := state;
    }

    /** One turn of the loop of the assign branch: a state and a producer for the
        partition, hung off a new list entry. */
    method AddPartition(p: Partition, first: nat, now: int)
      requires Valid() && active && p !in slot
      modifies `assignedPartitions, `consumer, `slot, `live, `repr
      ensures Valid() && fresh(repr - old(repr)) && old(repr) <= repr
      ensures |assignedPartitions| == |old(assignedPartitions)| + 1
      ensures assignedPartitions[..|old(assignedPartitions)|] == old(assignedPartitions)
      ensures AsNew(|old(assignedPartitions)|, p, now)
      ensures slot == old(slot)[p := |old(assignedPartitions)|]
      ensures consumer == Consumer(old(consumer.cursor)[p := first], old(consumer.position), old(consumer.origin)[p := first])
      ensures StillNew(now)
    {
      var e, state := NewState(p, now);
      Enter(e, state, first);
      EntersLinked(e, state, first);
      EntersOwned(e, state, first);
    }

    /** Entries that have just been made still have. */
    twostate predicate StillNew(now: int)
      reads `active, `assignedPartitions, `consumer, `slot, `live, `repr, repr
    {
      forall k :: 0 <= k < |old(assignedPartitions)| && old(AsNew(k, assignedPartitions[k].partition, now)) ==>
                    AsNew(k, old(assignedPartitions)[k].partition, now)
    }

    /** The entry joins the list and the consumer starts reading its partition. */
    method Enter(e: ListElement, state: PartitionState, first: nat)
      modifies `assignedPartitions, `consumer, `slot, `live, `repr
      ensures Entered(e, state, first)
    {
      slot := slot[e.partition := |assignedPartitions|];
      assignedPartitions := assignedPartitions + [e];
      consumer := consumer.(cursor := consumer.cursor[e.partition := first], origin := consumer.origin[e.partition := first]);
      live := live + {state.producer};
      repr := repr + {e, state.producer, state};
    }

    twostate predicate Entered(new e: ListElement, new state: PartitionState, first: nat)
      reads `assignedPartitions, `consumer, `slot, `live, `repr
    {
      && slot == old(slot)[e.partition := |old(assignedPartitions)|]
      && assignedPartitions == old(assignedPartitions) + [e]
      && consumer == Consumer(old(consumer.cursor)[e.partition := first], old(consumer.position), old(consumer.origin)[e.partition := first])
      && live == old(live) + {state.producer}
      && repr == old(repr) + {e, state.producer, state}
    }

    /** All entries are linked, the new one included. */
    twostate lemma EntersLinked(new e: ListElement, new state: PartitionState, first: nat)
      requires old(Valid()) && Entered(e, state, first) && e.partition !in old(slot)
      requires forall o :: o in old(repr) ==> unchanged(o)
      requires e.state == state && state.rktpar == e && state.producer.partition == e.partition && state.producer.txn != Ready
      ensures forall i :: 0 <= i < |assignedPartitions| ==> Linked(i)
    {
      forall i | 0 <= i < |assignedPartitions|
        ensures Linked(i)
      {
        if i < |old(assignedPartitions)| { assert old(Linked(i)); }
      }
    }

    /** Every live producer belongs to an entry, the new one included. */
    twostate lemma EntersOwned(new e: ListElement, new state: PartitionState, first: nat)
      requires old(Valid()) && Entered(e, state, first) && e.partition !in old(slot)
      requires forall o :: o in old(repr) ==> unchanged(o)
      requires e.state == state && state.producer.partition == e.partition
      ensures forall h :: h in live ==> h.partition in slot && ProducerAt(slot[h.partition], h)
    {
      forall h | h in live
        ensures h.partition in slot && ProducerAt(slot[h.partition], h)
      {
        if h != state.producer { assert old(ProducerAt(slot[h.partition], h)); }
      }
    }

    /** The entry has just been made for p. */
    ghost predicate AsNew(i: nat, p: Partition, now: int)
      reads `active, `assignedPartitions, `consumer, `slot, `live, `repr, repr
    {
      && i < |assignedPartitions| && Linked(i) && assignedPartitions[i].partition == p
      && assignedPartitions[i].state.producer.txn == InTxn && assignedPartitions[i].state.producer.pending == []
      && assignedPartitions[i].state.msgcnt == 0 && assignedPartitions[i].state.lastCommit == now
    }

    /** The assign branch of the rebalance callback: afterwards every partition given
        has its entry, its state and its producer in an open transaction, in the order
        of the list, as the step system says. */
    method OnAssign(partitions: seq<Partition>, reset: map<Partition, nat>, now: int, created: bool)
      requires Valid() && !active && phase.Polling? && Proper(Assign(partitions, reset, now, created))
      modifies this
      ensures fresh(repr - old(repr))
      ensures phase.Polling? ==> Valid() && Added(partitions, |partitions|, reset, now)
      ensures View() == AssignCallback(old(View()), Restricted(partitions, reset), now, created)
    {
      if !created {
        ExitProcess(false);
        return;
      }
      active := true;
      brokers := brokers.(owned := brokers.owned + (set p | p in partitions));
      AddPartitions(partitions, reset, now);
      AddedView(partitions, reset, now);
      AssignCallbackIs(old(View()), partitions, reset, now, brokers);
    }

    /** The first n partitions of the list given have just been added. */
    ghost predicate Added(partitions: seq<Partition>, n: nat, reset: map<Partition, nat>, now: int)
      requires n <= |partitions| && forall i :: 0 <= i < |partitions| ==> partitions[i] in reset
      reads this, repr
    {
      && |assignedPartitions| == n
      && (forall k :: 0 <= k < n ==> AsNew(k, partitions[k], now) && Starts(partitions[k], reset[partitions[k]]))
      && consumer.position == map[]
    }

    /** The partition is read from the committed offset, or the one the policy gives. */
    ghost predicate Starts(p: Partition, reset: nat)
      reads `consumer, `brokers
    {
      && p in consumer.cursor && p in consumer.origin
      && consumer.cursor[p] == consumer.origin[p] == FirstOffset(brokers, p, reset)
    }

    /** Adding the next partition leaves those added before as new as they were. */
    twostate lemma AddedOneMore(new partitions: seq<Partition>, i: nat, new reset: map<Partition, nat>, new now: int)
      requires i < |partitions| && (forall k :: 0 <= k < |partitions| ==> partitions[k] in reset) && old(Added(partitions, i, reset, now))
      requires forall k, l :: 0 <= k < l < |partitions| ==> partitions[k] != partitions[l]
      requires brokers == old(brokers) && |assignedPartitions| == i + 1 && assignedPartitions[..i] == old(assignedPartitions)
      requires AsNew(i, partitions[i], now) && StillNew(now)
      requires var first := FirstOffset(brokers, partitions[i], reset[partitions[i]]);
               consumer == Consumer(old(consumer.cursor)[partitions[i] := first], map[], old(consumer.origin)[partitions[i] := first])
      ensures Added(partitions, i + 1, reset, now)
    {
      forall k | 0 <= k < i
        ensures AsNew(k, partitions[k], now) && Starts(partitions[k], reset[partitions[k]])
      {
        assert old(AsNew(k, partitions[k], now) && Starts(partitions[k], reset[partitions[k]]));
      }
    }

    /** The next partition of the list is added. */
    method AddNext(partitions: seq<Partition>, i: nat, reset: map<Partition, nat>, now: int)
      requires Valid() && active && i < |partitions| && (forall k :: 0 <= k < |partitions| ==> partitions[k] in reset)
      requires forall k, l :: 0 <= k < l < |partitions| ==> partitions[k] != partitions[l]
      requires Added(partitions, i, reset, now) && partitions[i] !in slot
      modifies `assignedPartitions, `consumer, `slot, `live, `repr
      ensures Valid() && fresh(repr - old(repr)) && Added(partitions, i + 1, reset, now)
      ensures slot.Keys == old(slot.Keys) + {partitions[i]}
    {
      AddPartition(partitions[i], FirstOffset(brokers, partitions[i], reset[partitions[i]]), now);
      AddedOneMore(partitions, i, reset, now);
    }

    /** The loop of the assign branch. */
    method AddPartitions(partitions: seq<Partition>, reset: map<Partition, nat>, now: int)
      requires Valid() && active && assignedPartitions == []
      requires forall k, l :: 0 <= k < l < |partitions| ==> partitions[k] != partitions[l]
      requires forall k :: 0 <= k < |partitions| ==> partitions[k] in reset
      modifies `assignedPartitions, `consumer, `slot, `live, `repr
      ensures Valid() && fresh(repr - old(repr))
      ensures Added(partitions, |partitions|, reset, now)
      ensures slot.Keys == set p | p in partitions
    {
      assert slot == map[] && consumer.position == map[];
      for i := 0 to |partitions|
        invariant Valid() && fresh(repr - old(repr))
        invariant Added(partitions, i, reset, now)
        invariant slot.Keys == set p | p in partitions[..i]
      {
        AddNext(partitions, i, reset, now);
        assert partitions[..i + 1] == partitions[..i] + [partitions[i]];
      }
      assert partitions[..|partitions|] == partitions;
    }

    /** What the step system sees right after an assignment. */
    lemma AddedView(partitions: seq<Partition>, reset: map<Partition, nat>, now: int)
      requires Valid() && phase.Polling? && forall i :: 0 <= i < |partitions| ==> partitions[i] in reset
      requires Added(partitions, |partitions|, reset, now) && slot.Keys == set p | p in partitions
      ensures View().parts == map p | p in Restricted(partitions, reset) ::
                                Part(Fresh(), FirstOffset(brokers, p, reset[p]), None, FirstOffset(brokers, p, reset[p]), 0, now)
    {
      forall p | p in slot
        ensures p in reset && PartAt(p) == Part(Fresh(), FirstOffset(brokers, p, reset[p]), None, FirstOffset(brokers, p, reset[p]), 0, now)
      {
        var k :| 0 <= k < |partitions| && partitions[k] == p;
        assert AsNew(k, partitions[k], now) && Starts(partitions[k], reset[partitions[k]]);
        assert Linked(k);
      }
    }

    // ----- one partition -----

    ghost predicate Reads(state: PartitionState)
      reads `consumer
    {
      state.rktpar.partition in consumer.cursor && state.rktpar.partition in consumer.origin
    }

    ghost function PartOf(state: PartitionState): Part
      requires Reads(state)
      reads `consumer, state, state.producer
    {
      var p := state.rktpar.partition;
      Part(Producer(state.producer.txn, state.producer.pending), consumer.cursor[p],
           if p in consumer.position then Some(consumer.position[p]) else None,
           consumer.origin[p], state.msgcnt, state.lastCommit)
    }

    /** The step system's view of this process, with one partition only. */
    ghost function Local(state: PartitionState): World
      requires Reads(state)
      reads this, state, state.producer
    {
      World(Emit, brokers, active, map[state.rktpar.partition := PartOf(state)], phase)
    }

    /** The state is as the step function leaves the partition, or the process is gone
        and the brokers are as the step function leaves them. */
    ghost predicate Shows(state: PartitionState, w: World)
      reads this, state, state.producer
    {
      && brokers == w.brokers && phase == w.phase
      && (phase.Polling? ==> Reads(state) && Local(state) == w)
    }

    /** Nothing the consumer has of other partitions changes. */
    twostate predicate ConsumerOnly(p: Partition)
      reads this
    {
      && consumer.cursor.Keys == old(consumer.cursor.Keys) && consumer.origin.Keys == old(consumer.origin.Keys)
      && (forall q :: q in consumer.cursor && q != p ==> consumer.cursor[q] == old(consumer.cursor[q]))
      && (forall q :: q in consumer.origin && q != p ==> consumer.origin[q] == old(consumer.origin[q]))
      && (forall q :: q != p ==> (q in consumer.position <==> q in old(consumer.position)))
      && (forall q :: q != p && q in consumer.position ==> consumer.position[q] == old(consumer.position[q]))
    }

    method ExitProcess(misuse: bool)
      modifies this`brokers, this`phase
      ensures brokers == old(brokers).(owned := {}) && phase == Gone(misuse)
    {
      brokers := brokers.(owned := {});
      phase := Gone(misuse);
    }

    /** `abort_transaction_and_rewind` */
    method AbortTransactionAndRewind(state: PartitionState, o: Calls)
      requires Reads(state) && phase.Polling?
      modifies this`brokers, this`phase, this`consumer, state.producer
      ensures Shows(state, AbortAndRewind(old(Local(state)), state.rktpar.partition, o))
      ensures ConsumerOnly(state.rktpar.partition)
      ensures var p := state.rktpar.partition;
              phase.Polling? ==> consumer.cursor[p] == if p in brokers.committed then brokers.committed[p] else 0
    {
      var p := state.rktpar.partition;
      if state.producer.txn == Ready {
        ExitProcess(true);
        return;
      }
      if !o.abort || !o.begin || !o.committed || !o.seek {
        ExitProcess(false);
        return;
      }
      ghost var w := Local(state);
      state.producer.txn, state.producer.pending := InTxn, [];
      var target := if p in brokers.committed then brokers.committed[p] else 0;
      Seek(p, target, o.served);
      assert w.parts[p := PartOf(state)] == map[p := PartOf(state)];
    }

    /** A seek is requested; once it is served the partition has no position. */
    method Seek(p: Partition, target: nat, served: bool)
      requires p in consumer.cursor && p in consumer.origin
      modifies this`consumer
      ensures consumer == Consumer(old(consumer.cursor)[p := target],
                                   if served then old(consumer.position) - {p} else old(consumer.position),
                                   old(consumer.origin)[p := target])
      ensures ConsumerOnly(p)
    {
      consumer := consumer.(cursor := consumer.cursor[p := target], origin := consumer.origin[p := target]);
      if served {
        consumer := consumer.(position := consumer.position - {p});
      }
    }

    /** `commit_transaction_and_start_new` */
    method CommitTransactionAndStartNew(state: PartitionState, o: Calls, o': Calls)
      requires Reads(state) && phase.Polling?
      modifies this`brokers, this`phase, this`consumer, state.producer
      ensures Shows(state, CommitAndStartNew(old(Local(state)), state.rktpar.partition, o, o'))
      ensures ConsumerOnly(state.rktpar.partition)
    {
      var p := state.rktpar.partition;
      if state.producer.txn == Ready {
        ExitProcess(true);
        return;
      }
      if !o.position {
        ExitProcess(false);
        return;
      }
      var answer := SendOffsetsAndCommit(state, o);
      match answer
      case RollBack => AbortTransactionAndRewind(state, o');
      case Ends => ExitProcess(false);
      case TakesEffect => TakeEffectAndStartNext(state, o);
    }

    /** What sending the offset, if there is one, and committing come to: the two calls
        of the function and the errors it distinguishes. */
    method SendOffsetsAndCommit(state: PartitionState, o: Calls) returns (answer: Answer)
      requires Reads(state) && state.producer.txn != Ready && o.position
      ensures answer == RollBack <==> MustRollBack(Local(state), state.rktpar.partition, o)
      ensures answer == TakesEffect <==> Publishes(Local(state), state.rktpar.partition, o)
    {
      var p := state.rktpar.partition;
      if p in consumer.position {
        if p !in brokers.owned || o.send == Fails {
          return Ends;
        }
        if state.producer.txn == MustAbort || o.send == Aborts {
          return RollBack;
        }
      }
      if p !in brokers.owned || (state.producer.txn == MustAbort && o.commit == Fails) {
        return Ends;
      }
      if state.producer.txn == MustAbort || o.commit == Aborts {
        return RollBack;
      }
      return if o.commit == Fails && !o.applied then Ends else TakesEffect;
    }

    /** The transaction is committed and the next one begun. */
    method TakeEffectAndStartNext(state: PartitionState, o: Calls)
      requires Reads(state) && phase.Polling?
      modifies this`brokers, this`phase, this`consumer, state.producer
      ensures var w, p := old(Local(state)), state.rktpar.partition;
              Shows(state, StartNext(Publish(w, p, w.parts[p].position), p, o))
      ensures ConsumerOnly(state.rktpar.partition)
    {
      var p := state.rktpar.partition;
      TakeEffect(state);
      if o.commit == Fails || !o.begin {
        ExitProcess(false);
        return;
      }
      state.producer.txn, state.producer.pending := InTxn, [];
      if p in consumer.position && consumer.position[p] == consumer.cursor[p] {
        consumer := consumer.(origin := consumer.origin[p := consumer.cursor[p]]);
      }
    }

    /** The brokers make the transaction's output and offset visible. */
    method TakeEffect(state: PartitionState)
      requires Reads(state)
      modifies this`brokers
      ensures var p := state.rktpar.partition;
              brokers == Publish(old(Local(state)), p, PartOf(state).position).brokers
    {
      var p := state.rktpar.partition;
      brokers := brokers.(output := brokers.output + state.producer.pending);
      if p in consumer.position {
        brokers := brokers.(committed := brokers.committed[p := consumer.position[p]],
                            base := if p in brokers.base then brokers.base else brokers.base[p := consumer.origin[p]]);
      }
    }

    /** The retry loop around a full output queue. */
    method AwaitQueueSpace(producer: Handle, reports: seq<bool>)
      modifies producer
      ensures Producer(producer.txn, producer.pending) == WaitForQueue(old(Producer(producer.txn, producer.pending)), reports)
    {
      for i := 0 to |reports|
        invariant Producer(producer.txn, producer.pending) == WaitForQueue(old(Producer(producer.txn, producer.pending)), reports[..i])
      {
        assert reports[..i + 1] == reports[..i] + [reports[i]];
        if !reports[i] && producer.txn == InTxn {
          producer.txn := MustAbort;
        }
      }
      assert reports[..|reports|] == reports;
    }

    /** `process_message` */
    method ProcessMessage(state: PartitionState, offset: nat, r: Record, reports: seq<bool>, accepted: bool, o: Calls)
      requires Reads(state) && phase.Polling?
      modifies this`brokers, this`phase, this`consumer, state.producer
      ensures Shows(state, OlderBroker.ProcessMessage(old(Local(state)), state.rktpar.partition, offset, r, reports, accepted, o))
      ensures ConsumerOnly(state.rktpar.partition)
    {
      if |r.payload| == 0 {
        assert Runs(r.payload, 0) == [];
        return;
      }
      var sum := SumIntegers(r.payload);
      if sum == 0 {
        return;
      }
      EmitOutput(state, Entry(state.rktpar.partition, offset, Output(r.key, Numeral(sum))), reports, accepted, o);
    }

    /** The emitting loop of `process_message`. */
    method EmitOutput(state: PartitionState, e: Entry, reports: seq<bool>, accepted: bool, o: Calls)
      requires Reads(state) && phase.Polling?
      modifies this`brokers, this`phase, this`consumer, state.producer
      ensures Shows(state, OfferOutput(old(Local(state)), state.rktpar.partition, [e], reports, accepted, o))
      ensures ConsumerOnly(state.rktpar.partition)
    {
      ghost var w, p := Local(state), state.rktpar.partition;
      AwaitQueueSpace(state.producer, reports);
      assert w.parts[p := PartOf(state)] == map[p := PartOf(state)];
      if accepted && state.producer.txn == InTxn {
        state.producer.pending := state.producer.pending + [e];
        assert w.parts[p := PartOf(state)] == map[p := PartOf(state)];
      } else {
        AbortTransactionAndRewind(state, o);
      }
    }

    /** Counting the message and, when due, committing. */
    method Count(state: PartitionState, now: int, later: int, o: Calls, o': Calls)
      requires Reads(state) && phase.Polling?
      modifies this`brokers, this`phase, this`consumer, state, state.producer
      ensures Shows(state, CountAndCommit(old(Local(state)), state.rktpar.partition, now, later, o, o'))
      ensures ConsumerOnly(state.rktpar.partition)
    {
      CountMessage(state);
      if state.msgcnt > 100 || state.lastCommit + 5 <= now {
        CommitTransactionAndStartNew(state, o, o');
        if phase.Polling? {
          ghost var w := CommitAndStartNew(Counted(old(Local(state)), state.rktpar.partition), state.rktpar.partition, o, o');
          Restart(state, later, w);
        }
      }
    }

    /** The count and the clock of a partition start anew. */
    method Restart(state: PartitionState, later: int, ghost w: World)
      requires phase.Polling? && Shows(state, w)
      modifies state
      ensures Shows(state, ResetCount(w, state.rktpar.partition, later))
    {
      state.msgcnt := 0;
      state.lastCommit := later;
    }

    method CountMessage(state: PartitionState)
      requires Reads(state)
      modifies state
      ensures Local(state) == Counted(old(Local(state)), state.rktpar.partition)
      ensures state.msgcnt == old(state.msgcnt) + 1 && state.lastCommit == old(state.lastCommit)
    {
      state.msgcnt := state.msgcnt + 1;
      ghost var p := state.rktpar.partition;
      assert old(Local(state)).parts[p := PartOf(state)] == map[p := PartOf(state)];
    }

    method TakeMessage(state: PartitionState)
      requires Reads(state)
      modifies this`consumer
      ensures Reads(state) && Local(state) == Take(old(Local(state)), state.rktpar.partition)
      ensures ConsumerOnly(state.rktpar.partition)
    {
      var p := state.rktpar.partition;
      ghost var w := Local(state);
      var next := consumer.cursor[p] + 1;
      consumer := consumer.(cursor := consumer.cursor[p := next], position := consumer.position[p := next]);
      assert w.parts[p := PartOf(state)] == map[p := PartOf(state)];
    }

    /** Before the next poll returns, a requested seek has been served. */
    method ServeSeek(state: PartitionState)
      requires Reads(state)
      modifies this`consumer
      ensures Reads(state) && Local(state) == SettlePosition(old(Local(state)), state.rktpar.partition)
      ensures ConsumerOnly(state.rktpar.partition)
    {
      var p := state.rktpar.partition;
      ghost var w := Local(state);
      if p in consumer.position && consumer.position[p] != consumer.cursor[p] {
        consumer := consumer.(position := consumer.position - {p});
        assert w.parts[p := PartOf(state)] == map[p := PartOf(state)];
      } else {
        assert w.parts[p := PartOf(state)] == w.parts;
      }
    }

    /** The main loop from the lookup on: process, count, commit when due. */
    method HandleMessageOf(state: PartitionState, now: int, later: int, reports: seq<bool>, accepted: bool,
                           o1: Calls, o2: Calls, o3: Calls)
      requires Reads(state) && phase.Polling?
      requires consumer.cursor[state.rktpar.partition] < |OlderBroker.Log(Local(state), state.rktpar.partition)|
      modifies this`brokers, this`phase, this`consumer, state, state.producer
      ensures Shows(state, HandleMessage(old(Local(state)), state.rktpar.partition, now, later, reports, accepted, o1, o2, o3))
      ensures ConsumerOnly(state.rktpar.partition)
    {
      hide Processed, CountAndCommit, SettlePosition;
      EndedHoldsNothing(Local(state), state.rktpar.partition, reports, accepted, o1);
      TakeAndProcess(state, reports, accepted, o1);
      if phase.Polling? {
        Finish(state, now, later, o2, o3);
      }
    }

    method TakeAndProcess(state: PartitionState, reports: seq<bool>, accepted: bool, o: Calls)
      requires Reads(state) && phase.Polling?
      requires consumer.cursor[state.rktpar.partition] < |OlderBroker.Log(Local(state), state.rktpar.partition)|
      modifies this`brokers, this`phase, this`consumer, state, state.producer
      ensures Shows(state, Processed(old(Local(state)), state.rktpar.partition, reports, accepted, o))
      ensures ConsumerOnly(state.rktpar.partition)
    {
      hide OlderBroker.ProcessMessage;
      var p := state.rktpar.partition;
      var offset := consumer.cursor[p];
      var r := brokers.log[p][offset];
      TakeMessage(state);
      ProcessMessage(state, offset, r, reports, accepted, o);
    }

    method Finish(state: PartitionState, now: int, later: int, o: Calls, o': Calls)
      requires Reads(state) && phase.Polling?
      modifies this`brokers, this`phase, this`consumer, state, state.producer
      ensures Shows(state, FinishTurn(old(Local(state)), state.rktpar.partition, now, later, o, o'))
      ensures ConsumerOnly(state.rktpar.partition)
    {
      Count(state, now, later, o, o');
      if phase.Polling? {
        ServeSeek(state);
      }
    }

    /** One turn of the main loop with a message of `p`: the lookup, the handling, and
        the data structure is as before. Without an entry for `p` the program would
        report a bug of its own; that happens for no partition the consumer reads. */
    method OnMessage(p: Partition, now: int, later: int, reports: seq<bool>, accepted: bool, o1: Calls, o2: Calls, o3: Calls)
      requires Valid() && phase.Polling?
      requires p in consumer.cursor ==> p in brokers.log && consumer.cursor[p] < |brokers.log[p]|
      modifies this, repr
      ensures p !in old(consumer.cursor) ==> phase == Gone(true)
      ensures repr == old(repr)
      ensures p in old(consumer.cursor) ==>
                && (phase.Polling? ==> Valid())
                && View() == Step(old(View()), Message(p, now, later, reports, accepted, o1, o2, o3))
    {
      var state := Find(p);
      if state == null {
        ExitProcess(true);
        return;
      }
      TurnOf(state, Message(p, now, later, reports, accepted, o1, o2, o3));
    }

    /** The turn of a state whose producer is in a transaction, as it always is. */
    method HandleInTransaction(state: PartitionState, now: int, later: int, reports: seq<bool>, accepted: bool,
                               o1: Calls, o2: Calls, o3: Calls)
      requires Reads(state) && phase.Polling? && state.producer.txn != Ready
      requires consumer.cursor[state.rktpar.partition] < |OlderBroker.Log(Local(state), state.rktpar.partition)|
      modifies this`brokers, this`phase, this`consumer, state, state.producer
      ensures Shows(state, HandleMessage(old(Local(state)), state.rktpar.partition, now, later, reports, accepted, o1, o2, o3))
      ensures ConsumerOnly(state.rktpar.partition)
      ensures phase != Gone(true) && (phase.Polling? ==> state.producer.txn != Ready)
    {
      StaysInTransaction(Local(state), state.rktpar.partition, now, later, reports, accepted, o1, o2, o3);
      HandleMessageOf(state, now, later, reports, accepted, o1, o2, o3);
    }

    /** The turn once the state is found. */
    method TurnOf(state: PartitionState, e: Event)
      requires Valid() && phase.Polling? && e.Message? && e.p in consumer.cursor && e.p in slot
      requires state == assignedPartitions[slot[e.p]].state && e.p in brokers.log && consumer.cursor[e.p] < |brokers.log[e.p]|
      modifies `brokers, `phase, `consumer, repr
      ensures phase.Polling? ==> Valid()
      ensures View() == Step(old(View()), e)
    {
      hide Step;
      assert Linked(slot[e.p]);
      LocalTurn(state, e);
      TurnView(state, e);
    }

    /** What the step system sees of a turn is its own step. */
    twostate lemma TurnView(state: PartitionState, new e: Event)
      requires old(Valid()) && old(phase.Polling?) && e.Message?
      requires old(e.p in slot && Linked(slot[e.p]) && state == assignedPartitions[slot[e.p]].state)
      requires old(e.p in consumer.cursor && e.p in brokers.log && consumer.cursor[e.p] < |brokers.log[e.p]|)
      requires Shows(state, Step(old(Local(state)), e)) && ConsumerOnly(e.p)
      requires active == old(active) && assignedPartitions == old(assignedPartitions)
      requires slot == old(slot) && live == old(live) && repr == old(repr)
      requires forall o :: o in old(repr) && o != state && o != state.producer ==> unchanged(o)
      requires phase.Polling? ==> state.producer.txn != Ready
      ensures phase.Polling? ==> Valid()
      ensures View() == Step(old(View()), e)
    {
      hide Step;
      LocalWasOnly(state, e.p);
      StepFramed(old(View()), e);
      if phase.Polling? {
        ViewAfterTurn(state, e.p, Step(old(Local(state)), e));
      }
    }

    twostate lemma LocalWasOnly(state: PartitionState, new p: Partition)
      requires old(Valid()) && old(phase.Polling?) && old(p in slot && state == assignedPartitions[slot[p]].state)
      ensures old(Reads(state)) && p in old(View()).parts && old(Local(state)) == Frame.Only(old(View()), p)
    {
      assert old(Linked(slot[p]));
    }

    /** The turn as a step of the partition alone. */
    method LocalTurn(state: PartitionState, e: Event)
      requires Reads(state) && phase.Polling? && state.producer.txn != Ready && e.Message? && e.p == state.rktpar.partition
      requires e.p in brokers.log && consumer.cursor[e.p] < |brokers.log[e.p]|
      modifies `brokers, `phase, `consumer, state, state.producer
      ensures Shows(state, Step(old(Local(state)), e))
      ensures ConsumerOnly(e.p)
      ensures phase.Polling? ==> state.producer.txn != Ready
    {
      hide HandleMessage;
      HandleInTransaction(state, e.now, e.later, e.reports, e.accepted, e.o1, e.o2, e.o3);
    }

    /** A state and its partition alone are one partition of the whole. */
    lemma LocalIsOnly(state: PartitionState, p: Partition)
      requires Valid() && phase.Polling? && p in slot && state == assignedPartitions[slot[p]].state
      ensures Reads(state) && p in View().parts && Local(state) == Frame.Only(View(), p)
    {
      assert Linked(slot[p]);
    }

    /** What the step system sees of other partitions is what it saw. */
    twostate lemma OthersLookTheSame(state: PartitionState, new p: Partition, new q: Partition)
      requires old(Valid()) && Valid() && p in slot && q in slot && q != p && state == assignedPartitions[slot[p]].state
      requires slot == old(slot) && assignedPartitions == old(assignedPartitions) && repr == old(repr)
      requires forall o :: o in old(repr) && o != state && o != state.producer ==> unchanged(o)
      requires ConsumerOnly(p)
      ensures PartAt(q) == old(PartAt(q))
    {
      assert old(Linked(slot[p])) && old(Linked(slot[q]));
      assert Linked(slot[q]);
    }

    /** The data structure is sound after a turn, and one partition looks different. */
    twostate lemma ViewAfterTurn(state: PartitionState, new p: Partition, new t1: World)
      requires old(Valid()) && old(phase.Polling?) && phase == old(phase)
      requires p in slot && old(p in slot && state == assignedPartitions[slot[p]].state) && Shows(state, t1)
      requires active == old(active) && assignedPartitions == old(assignedPartitions)
      requires slot == old(slot) && live == old(live) && repr == old(repr)
      requires forall o :: o in old(repr) && o != state && o != state.producer ==> unchanged(o)
      requires ConsumerOnly(p) && state.producer.txn != Ready
      ensures Valid() && p in t1.parts && View() == t1.(parts := old(View()).parts[p := t1.parts[p]])
    {
      assert old(Linked(slot[p]));
      StaysLinked(state);
      PartsAfterTurn(state, p);
      assert Linked(slot[p]) && PartAt(p) == PartOf(state);
    }

    twostate lemma PartsAfterTurn(state: PartitionState, new p: Partition)
      requires old(Valid()) && Valid() && p in slot && state == assignedPartitions[slot[p]].state
      requires slot == old(slot) && assignedPartitions == old(assignedPartitions) && repr == old(repr)
      requires forall o :: o in old(repr) && o != state && o != state.producer ==> unchanged(o)
      requires ConsumerOnly(p)
      ensures forall q :: q in slot && q != p ==> PartAt(q) == old(PartAt(q))
    {
      forall q | q in slot && q != p
        ensures PartAt(q) == old(PartAt(q))
      {
        OthersLookTheSame(state, p, q);
      }
    }

    // ----- runs -----

    /** The brokers change, the process does not notice. */
    method ChangeBrokers(b: Brokers)
      requires phase.Polling? ==> Valid()
      modifies `brokers
      ensures phase.Polling? ==> Valid()
      ensures View() == old(View()).(brokers := b)
    {
      brokers := b;
    }

    /** A delivery fails, and the producer's transaction must be aborted. */
    method OnDeliveryFailure(p: Partition)
      requires Valid() && phase.Polling?
      modifies repr
      ensures Valid() && View() == Step(old(View()), DeliveryFailure(p))
    {
      hide HandleMessage, CommitByOthers;
      var state := Find(p);
      SlotsAreRead();
      if state == null || state.producer.txn != InTxn {
        if state != null { LocalIsOnly(state, p); }
        return;
      }
      FailDeliveryOf(state, p);
    }

    method FailDeliveryOf(state: PartitionState, p: Partition)
      requires Valid() && phase.Polling? && p in slot && state == assignedPartitions[slot[p]].state && state.producer.txn == InTxn
      modifies repr
      ensures Valid() && View() == Step(old(View()), DeliveryFailure(p))
    {
      hide HandleMessage, CommitByOthers;
      assert Linked(slot[p]);
      LocalIsOnly(state, p);
      ghost var t1 := FailDelivery(Local(state), p);
      state.producer.txn := MustAbort;
      assert t1.parts == map[p := t1.parts[p]];
      ViewAfterTurn(state, p, t1);
    }

    /** A new process. */
    method Start()
      requires phase.Gone?
      modifies this
      ensures Valid() && phase.Polling? && repr == {} && View() == Step(old(View()), Started)
    {
      hide HandleMessage, CommitByOthers;
      phase := Polling;
      Clear();
    }

    /** The poll of a running process returns a message of p, if it has one. */
    method Deliver(e: Event)
      requires e.Message? && Valid() && phase.Polling?
      modifies this, repr
      ensures repr == old(repr) && (phase.Polling? ==> Valid())
      ensures View() == Step(old(View()), e)
    {
      hide HandleMessage, CommitByOthers;
      SlotsAreRead();
      ghost var w := View();
      assert forall p :: p in w.parts ==> w.parts[p].cursor == consumer.cursor[p] by {
        forall p | p in slot ensures PartAt(p).cursor == consumer.cursor[p] { assert Linked(slot[p]); }
      }
      if e.p in consumer.cursor && e.p in brokers.log && consumer.cursor[e.p] < |brokers.log[e.p]| {
        OnMessage(e.p, e.now, e.later, e.reports, e.accepted, e.o1, e.o2, e.o3);
      }
    }

    method Assigning(g: Signal)
      requires g.Assign? && Proper(g) && Valid() && phase.Polling?
      modifies this
      ensures fresh(repr - old(repr)) && (phase.Polling? ==> Valid())
      ensures View() == Step(old(View()), EventOf(g))
    {
      hide HandleMessage, CommitByOthers;
      var reset := Restricted(g.partitions, g.reset);
      if !active && forall p :: p in reset ==> reset[p] <= |if p in brokers.log then brokers.log[p] else []| {
        OnAssign(g.partitions, g.reset, g.now, g.created);
      }
    }

    /** What happens outside a turn of the main loop. */
    method HandleOther(e: Event)
      requires !e.Assigned? && !e.Message? && (phase.Polling? ==> Valid())
      modifies this, repr
      ensures fresh(repr - old(repr)) && (phase.Polling? ==> Valid())
      ensures View() == Step(old(View()), e)
    {
      hide HandleMessage, CommitByOthers;
      match e
      case Append(p, r) =>
        ChangeBrokers(brokers.(log := brokers.log[p := (if p in brokers.log then brokers.log[p] else []) + [r]]));
      case FencedOff(p) => ChangeBrokers(brokers.(owned := brokers.owned - {p}));
      case OthersCommit(p, first, n) => OnOthersCommit(p, first, n);
      case DeliveryFailure(p) => if phase.Polling? { OnDeliveryFailure(p); }
      case Revoked => if phase.Polling? && active { OnRevoke(); }
      case Crash => if phase.Polling? { ExitProcess(false); }
      case Started => if phase.Gone? { Start(); }
    }

    method OnOthersCommit(p: Partition, first: nat, n: nat)
      requires phase.Polling? ==> Valid()
      modifies `brokers
      ensures phase.Polling? ==> Valid()
      ensures View() == Step(old(View()), OthersCommit(p, first, n))
    {
      hide Expected, HandleMessage;
      var log := if p in brokers.log then brokers.log[p] else [];
      var start := FirstOffset(brokers, p, first);
      if p !in brokers.owned && start + n <= |log| {
        ChangeBrokers(brokers.(output := brokers.output + Expected(Emit, log, p, start, start + n),
                               committed := brokers.committed[p := start + n],
                               base := if p in brokers.base then brokers.base else brokers.base[p := start]));
      }
    }

    method Handle(g: Signal)
      requires Proper(g) && (phase.Polling? ==> Valid())
      modifies this, repr
      ensures fresh(repr - old(repr)) && (phase.Polling? ==> Valid())
      ensures View() == Step(old(View()), EventOf(g))
    {
      if g.Other? && !g.e.Message? {
        HandleOther(g.e);
      } else if phase.Polling? {
        if g.Assign? {
          Assigning(g);
        } else {
          Deliver(g.e);
        }
      }
    }

    /** A whole run from the beginning, of any signals: the program is where the step
        system is. So the data structure stays sound, no process ends by a missing
        producer or a call in the wrong transaction state, no output is committed twice,
        and processing is exactly-once if every step was clean. */
    method Serve(signals: seq<Signal>)
      requires phase.Gone? && exists log :: View() == Initial(Emit, log)
      requires forall i :: 0 <= i < |signals| ==> Proper(signals[i])
      modifies this, repr
      ensures phase.Polling? ==> Valid()
      ensures View() == Run(old(View()), Events(signals))
      ensures Proofs.Shape(View()) && Safety.Sound(View())
      ensures Proofs.CleanThroughout(old(View()), Events(signals)) ==> Proofs.ExactlyOnceState(View())
    {
      ghost var w0 := View();
      for i := 0 to |signals|
        invariant fresh(repr - old(repr)) && (phase.Polling? ==> Valid())
        invariant View() == Run(w0, Events(signals[..i]))
      {
        Handle(signals[i]);
        EventsStep(signals, i);
      }
      assert signals[..|signals|] == signals;
      ghost var log :| w0 == Initial(Emit, log);
      Proofs.EveryRunKeepsShape(Emit, log, Events(signals));
      Safety.EveryRunIsSound(Emit, log, Events(signals));
      Proofs.ExactlyOnceIffClean(Emit, log, Events(signals));
    }

    /** Changing one state, its producer and what the consumer has of its partition
        keeps the data structure, if the producer is in a transaction. */
    twostate lemma StaysLinked(state: PartitionState)
      requires old(Valid()) && old(state in repr && state.producer in repr)
      requires forall o :: o in old(repr) && o != state && o != state.producer ==> unchanged(o)
      requires active == old(active) && assignedPartitions == old(assignedPartitions)
      requires slot == old(slot) && live == old(live) && repr == old(repr)
      requires ConsumerOnly(state.rktpar.partition) && state.producer.txn != Ready
      requires state.rktpar.partition in old(consumer.cursor)
      ensures Valid()
    {
      forall i | 0 <= i < |assignedPartitions|
        ensures Linked(i)
      {
        assert old(Linked(i));
      }
      forall h | h in live
        ensures h.partition in slot && ProducerAt(slot[h.partition], h)
      {
        assert old(ProducerAt(slot[h.partition], h));
      }
    }
  }

  /** What an assignment comes to, with the offsets looked up after the group took over. */
  lemma AssignCallbackIs(w: World, partitions: seq<Partition>, reset: map<Partition, nat>, now: int, b: Brokers)
    requires forall i :: 0 <= i < |partitions| ==> partitions[i] in reset
    requires b == w.brokers.(owned := w.brokers.owned + (set p | p in partitions))
    ensures AssignCallback(w, Restricted(partitions, reset), now, true) ==
            World(w.process, b, true, map p | p in Restricted(partitions, reset) ::
                    Part(Fresh(), FirstOffset(b, p, reset[p]), None, FirstOffset(b, p, reset[p]), 0, now), w.phase)
  {
    assert Restricted(partitions, reset).Keys == set p | p in partitions;
  }

  lemma StepFramed(w: World, e: Event)
    requires e.Message? && Enabled(w, e)
    ensures Frame.Framed(w, Step(Frame.Only(w, e.p), e), Step(w, e), e.p)
  {
    hide HandleMessage;
    Frame.TurnFramed(w, e.p, e.now, e.later, e.reports, e.accepted, e.o1, e.o2, e.o3);
  }

  lemma EventsStep(gs: seq<Signal>, i: nat)
    requires i < |gs|
    ensures Events(gs[..i + 1]) == Events(gs[..i]) + [EventOf(gs[i])]
    ensures Events(gs[..i + 1])[..|Events(gs[..i])|] == Events(gs[..i])
  {
    assert gs[..i + 1][..i] == gs[..i];
  }

  /** A process that ended holds no partition. */
  lemma EndedHoldsNothing(w: World, p: Partition, reports: seq<bool>, accepted: bool, o: Calls)
    requires p in w.parts && w.parts[p].cursor < |OlderBroker.Log(w, p)| && w.phase.Polling?
    ensures Processed(w, p, reports, accepted, o).phase.Gone? ==> Processed(w, p, reports, accepted, o).parts == map[]
  {
  }

  lemma ProcessedInTransaction(w: World, p: Partition, reports: seq<bool>, accepted: bool, o: Calls)
    requires p in w.parts && w.parts[p].cursor < |OlderBroker.Log(w, p)| && w.parts[p].producer.txn != Ready && w.phase.Polling?
    ensures var t := Processed(w, p, reports, accepted, o);
            t.phase != Gone(true) && (p in t.parts ==> t.parts[p].producer.txn != Ready)
  {
  }

  lemma CommittedInTransaction(w: World, p: Partition, o: Calls, o': Calls)
    requires p in w.parts && w.parts[p].producer.txn != Ready && w.phase != Gone(true)
    ensures var t := CommitAndStartNew(w, p, o, o');
            t.phase != Gone(true) && (p in t.parts ==> t.parts[p].producer.txn != Ready)
  {
  }

  lemma FinishedInTransaction(w: World, p: Partition, now: int, later: int, o: Calls, o': Calls)
    requires w.phase != Gone(true) && (p in w.parts ==> w.parts[p].producer.txn != Ready)
    ensures var t := FinishTurn(w, p, now, later, o, o');
            t.phase != Gone(true) && (p in t.parts ==> t.parts[p].producer.txn != Ready)
  {
    if p in w.parts {
      CommittedInTransaction(Counted(w, p), p, o, o');
    }
  }

  /** A turn leaves the producer of its partition inside a transaction, and makes no call
      in the wrong state. */
  lemma StaysInTransaction(w: World, p: Partition, now: int, later: int, reports: seq<bool>, accepted: bool, o1: Calls, o2: Calls, o3: Calls)
    requires p in w.parts && w.parts[p].cursor < |OlderBroker.Log(w, p)| && w.parts[p].producer.txn != Ready && w.phase.Polling?
    ensures var t := HandleMessage(w, p, now, later, reports, accepted, o1, o2, o3);
            t.phase != Gone(true) && (p in t.parts ==> t.parts[p].producer.txn != Ready)
  {
    ProcessedInTransaction(w, p, reports, accepted, o1);
    FinishedInTransaction(Processed(w, p, reports, accepted, o1), p, now, later, o2, o3);
  }
}
