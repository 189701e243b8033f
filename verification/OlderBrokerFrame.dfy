/** A turn of the main loop looks at its own partition only: run on the partition alone it
    gives what the whole run gives for it. */
module OlderBrokerFrame {
  import opened MessageFunction
  import opened OutputStream
  import opened OlderBroker

  /** The process with one of its partitions. */
  function Only(w: World, p: Partition): World
    requires p in w.parts
  {
    w.(parts := map[p := w.parts[p]])
  }

  /** What `t1` says of partition p alone, `t` says in the company of the others of `w`. */
  ghost predicate Framed(w: World, t1: World, t: World, p: Partition) {
    && t == t1.(parts := t.parts) && t.process == w.process
    && (if t.phase.Polling? then p in t1.parts && t1.parts == map[p := t1.parts[p]] && t.parts == w.parts[p := t1.parts[p]]
        else t1.parts == map[] && t.parts == map[] && !t.active)
  }

  lemma AloneIsOnly(w: World, t1: World, t: World, p: Partition)
    requires Framed(w, t1, t, p) && t.phase.Polling?
    ensures p in t.parts && Only(t, p) == t1
  {
  }

  lemma FramedTrans(w: World, u1: World, u: World, t1: World, t: World, p: Partition)
    requires Framed(w, u1, u, p) && u.phase.Polling? && Framed(u, t1, t, p)
    ensures Framed(w, t1, t, p)
  {
  }

  lemma UpdateFramed(w: World, p: Partition, part: Part)
    requires p in w.parts && w.phase.Polling?
    ensures Framed(w, Only(w, p).(parts := Only(w, p).parts[p := part]), w.(parts := w.parts[p := part]), p)
  {
    assert Only(w, p).parts[p := part] == map[p := part];
  }

  lemma RewindFramed(w: World, p: Partition, o: Calls)
    requires p in w.parts && w.phase.Polling?
    ensures Framed(w, AbortAndRewind(Only(w, p), p, o), AbortAndRewind(w, p, o), p)
  {
    var t := AbortAndRewind(w, p, o);
    if t.phase.Polling? {
      UpdateFramed(w, p, t.parts[p]);
    }
  }

  lemma PublishFramed(w: World, p: Partition)
    requires p in w.parts && w.phase.Polling?
    ensures Framed(w, Publish(Only(w, p), p, w.parts[p].position), Publish(w, p, w.parts[p].position), p)
  {
    assert w.parts[p := w.parts[p]] == w.parts;
  }

  lemma StartNextFramed(w: World, p: Partition, o: Calls)
    requires p in w.parts && w.phase.Polling?
    ensures Framed(w, StartNext(Only(w, p), p, o), StartNext(w, p, o), p)
  {
    var t := StartNext(w, p, o);
    if t.phase.Polling? {
      UpdateFramed(w, p, t.parts[p]);
    }
  }

  lemma CommitFramed(w: World, p: Partition, o: Calls, o': Calls)
    requires p in w.parts && w.phase.Polling?
    ensures Framed(w, CommitAndStartNew(Only(w, p), p, o, o'), CommitAndStartNew(w, p, o, o'), p)
  {
    RewindFramed(w, p, o');
    var u, u1 := Publish(w, p, w.parts[p].position), Publish(Only(w, p), p, w.parts[p].position);
    PublishFramed(w, p);
    AloneIsOnly(w, u1, u, p);
    StartNextFramed(u, p, o);
    FramedTrans(w, u1, u, StartNext(u1, p, o), StartNext(u, p, o), p);
  }

  lemma CountFramed(w: World, p: Partition, now: int, later: int, o: Calls, o': Calls)
    requires p in w.parts && w.phase.Polling?
    ensures Framed(w, CountAndCommit(Only(w, p), p, now, later, o, o'), CountAndCommit(w, p, now, later, o, o'), p)
  {
    var u, u1 := Counted(w, p), Counted(Only(w, p), p);
    UpdateFramed(w, p, u.parts[p]);
    if Due(w.parts[p], now) {
      AloneIsOnly(w, u1, u, p);
      var v, v1 := CommitAndStartNew(u, p, o, o'), CommitAndStartNew(u1, p, o, o');
      CommitFramed(u, p, o, o');
      FramedTrans(w, u1, u, v1, v, p);
      ResetFramed(w, v1, v, p, later);
    }
  }

  lemma ResetFramed(w: World, v1: World, v: World, p: Partition, later: int)
    requires p in w.parts && Framed(w, v1, v, p)
    ensures Framed(w, ResetCount(v1, p, later), ResetCount(v, p, later), p)
  {
    if v.phase.Polling? {
      AloneIsOnly(w, v1, v, p);
      UpdateFramed(v, p, v.parts[p].(msgcnt := 0, lastCommit := later));
      FramedTrans(w, v1, v, ResetCount(v1, p, later), ResetCount(v, p, later), p);
    }
  }

  lemma SettleFramed(w: World, p: Partition)
    requires p in w.parts && w.phase.Polling?
    ensures Framed(w, SettlePosition(Only(w, p), p), SettlePosition(w, p), p)
  {
    assert w.parts[p := w.parts[p]] == w.parts;
    UpdateFramed(w, p, w.parts[p].(position := None));
  }

  lemma FinishFramed(w: World, p: Partition, now: int, later: int, o: Calls, o': Calls)
    requires p in w.parts && w.phase.Polling?
    ensures Framed(w, FinishTurn(Only(w, p), p, now, later, o, o'), FinishTurn(w, p, now, later, o, o'), p)
  {
    var u, u1 := CountAndCommit(w, p, now, later, o, o'), CountAndCommit(Only(w, p), p, now, later, o, o');
    CountFramed(w, p, now, later, o, o');
    if u.phase.Polling? {
      AloneIsOnly(w, u1, u, p);
      SettleFramed(u, p);
      FramedTrans(w, u1, u, SettlePosition(u1, p), SettlePosition(u, p), p);
    }
  }

  lemma OfferFramed(w: World, p: Partition, es: seq<Entry>, reports: seq<bool>, accepted: bool, o: Calls)
    requires p in w.parts && w.phase.Polling?
    ensures Framed(w, OfferOutput(Only(w, p), p, es, reports, accepted, o), OfferOutput(w, p, es, reports, accepted, o), p)
  {
    var part := w.parts[p];
    var pr := WaitForQueue(part.producer, reports);
    if accepted && pr.txn == InTxn {
      UpdateFramed(w, p, part.(producer := pr.(pending := pr.pending + es)));
    } else {
      var u, u1 := w.(parts := w.parts[p := part.(producer := pr)]), Only(w, p).(parts := Only(w, p).parts[p := part.(producer := pr)]);
      UpdateFramed(w, p, part.(producer := pr));
      AloneIsOnly(w, u1, u, p);
      RewindFramed(u, p, o);
      FramedTrans(w, u1, u, AbortAndRewind(u1, p, o), AbortAndRewind(u, p, o), p);
    }
  }

  lemma ProcessedFramed(w: World, p: Partition, reports: seq<bool>, accepted: bool, o: Calls)
    requires p in w.parts && w.parts[p].cursor < |Log(w, p)| && w.phase.Polling?
    ensures Framed(w, Processed(Only(w, p), p, reports, accepted, o), Processed(w, p, reports, accepted, o), p)
  {
    var u, u1 := Take(w, p), Take(Only(w, p), p);
    UpdateFramed(w, p, u.parts[p]);
    AloneIsOnly(w, u1, u, p);
    var es := Tagged(w.process, p, w.parts[p].cursor, Log(w, p)[w.parts[p].cursor]);
    if es != [] {
      OfferFramed(u, p, es, reports, accepted, o);
      FramedTrans(w, u1, u, OfferOutput(u1, p, es, reports, accepted, o), OfferOutput(u, p, es, reports, accepted, o), p);
    }
  }

  /** The turn of a message, on the partition alone and among the others. */
  lemma TurnFramed(w: World, p: Partition, now: int, later: int, reports: seq<bool>, accepted: bool, o1: Calls, o2: Calls, o3: Calls)
    requires p in w.parts && w.parts[p].cursor < |Log(w, p)| && w.phase.Polling?
    ensures Framed(w, HandleMessage(Only(w, p), p, now, later, reports, accepted, o1, o2, o3),
                   HandleMessage(w, p, now, later, reports, accepted, o1, o2, o3), p)
  {
    var u, u1 := Processed(w, p, reports, accepted, o1), Processed(Only(w, p), p, reports, accepted, o1);
    ProcessedFramed(w, p, reports, accepted, o1);
    if u.phase.Polling? {
      AloneIsOnly(w, u1, u, p);
      FinishFramed(u, p, now, later, o2, o3);
      FramedTrans(w, u1, u, FinishTurn(u1, p, now, later, o2, o3), FinishTurn(u, p, now, later, o2, o3), p);
    }
  }
}
