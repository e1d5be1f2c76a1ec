/** The publisher's own object, updated in place: one method per atomic step of its tasks, each proved to have
    exactly the effect the step system gives it and to keep the object valid; the others are parts of a step. */
module PublisherTask {
  import opened Text
  import opened RelayPublisher
  import opened PublisherSafety

  class Publisher {
    const cfg: Config
    var todo: seq<Option<Id>>
    var retries: multiset<Id>
    var workers: seq<Worker>
    var attempts: map<Id, nat>
    var permits: nat
    var producedAll: bool
    var producerFailed: bool
    var done: bool
    var nResolved: nat
    var deadWorkers: nat
    var stats: Stats
    ghost var log: Log

    ghost function View(): State
      reads this
    {
      State(todo, retries, workers, attempts, permits, producedAll, producerFailed, done, nResolved, deadWorkers, stats,
            log)
    }

    /** Held between any two steps. */
    ghost predicate Valid()
      reads this
    {
      cfg.Positive() && Inv(cfg, View())
    }

    constructor (cfg: Config)
      requires cfg.Positive()
      ensures this.cfg == cfg && View() == Init(cfg) && Valid()
    {
      this.cfg := cfg;
      todo, retries, workers, attempts := [], multiset{}, seq(cfg.connections, _ => Idle(0)), map[];
      permits, producedAll, producerFailed, done := cfg.maxOutstanding, false, false, false;
      nResolved, deadWorkers, stats, log := 0, 0, Stats(0, 0, 0, 0, false), Log([], {}, {}, 0, 0);
      new;
      assert workers == seq(cfg.connections, _ => Idle(0));
      InitInv(cfg);
    }

    method Finish()
      modifies this
      ensures View() == RelayPublisher.Finish(cfg, old(View()))
    {
      if !done {
        done := true;
        ghost var before := todo;
        for i := 0 to cfg.connections
          modifies `todo
          invariant todo == before + Sentinels(i)
        {
          assert Sentinels(i + 1) == Sentinels(i) + [None];
          todo := todo + [None];
        }
      }
    }

    method CheckDone()
      modifies this
      ensures View() == RelayPublisher.CheckDone(cfg, old(View()))
    {
      if producedAll && nResolved == stats.nEvents {
        Finish();
      }
    }

    method Resolve()
      modifies this
      ensures View() == RelayPublisher.Resolve(cfg, old(View()))
    {
      nResolved := nResolved + 1;
      permits := permits + 1;
      assert View() == old(View()).(nResolved := nResolved, permits := permits);
      CheckDone();
    }

    /** The event counted and queued. */
    method Enqueue(id: Id)
      requires Enabled(cfg, View(), Label.Produce(id))
      modifies this
      ensures View() == Apply(cfg, old(View()), Label.Produce(id))
    {
      permits := permits - 1;
      stats := stats.(nEvents := stats.nEvents + 1);
      attempts := attempts[id := 0];
      todo := todo + [Some(id)];
      log := log.(produced := log.produced + [id]);
    }

    /** One turn of `_produce`: the semaphore is taken, the event counted and queued. */
    method Produce(id: Id)
      requires Valid() && Enabled(cfg, View(), Label.Produce(id))
      modifies this
      ensures View() == Apply(cfg, old(View()), Label.Produce(id)) && Valid()
    {
      InvStep(cfg, View(), Label.Produce(id));
      Enqueue(id);
    }

    method ProduceEnd()
      requires Valid() && Enabled(cfg, View(), Label.ProduceEnd)
      modifies this
      ensures View() == Apply(cfg, old(View()), Label.ProduceEnd) && Valid()
    {
      InvStep(cfg, View(), Label.ProduceEnd);
      producedAll := true;
      CheckDone();
    }

    /** `_requeue`: the connection's unacked events go back to the queue, in the order they were sent. */
    method Requeue(pending: seq<Id>)
      modifies `todo
      ensures todo == old(todo) + Items(pending)
    {
      for i := 0 to |pending|
        invariant todo == old(todo) + Items(pending[..i])
      {
        assert Items(pending[..i + 1]) == Items(pending[..i]) + [Some(pending[i])];
        todo := todo + [Some(pending[i])];
      }
      assert pending[..|pending|] == pending;
    }

    method Drop(w: nat)
      requires Valid() && Enabled(cfg, View(), Label.Drop(w))
      modifies this
      ensures View() == Apply(cfg, old(View()), Label.Drop(w)) && Valid()
    {
      InvStep(cfg, View(), Label.Drop(w));
      Requeue(workers[w].pending);
      workers := workers[w := Closing(workers[w].failures, workers[w].progress)];
    }

    /** One turn of `_send` at `todo.get()`. */
    method Get(w: nat)
      requires Valid() && Enabled(cfg, View(), Label.Get(w))
      modifies this
      ensures View() == Apply(cfg, old(View()), Label.Get(w)) && Valid()
    {
      InvStep(cfg, View(), Label.Get(w));
      var item := todo[0];
      todo := todo[1..];
      if item.None? {
        workers := workers[w := workers[w].(sender := Stopped)];
      } else {
        workers := workers[w := workers[w].(pending := workers[w].pending + [item.value], sender := Sending)];
      }
    }

    method OnAccepted(id: Id)
      modifies this
      ensures View() == RelayPublisher.Resolve(cfg, Accept(old(View()), id))
    {
      stats := stats.(nAcked := stats.nAcked + 1);
      log := log.(acked := log.acked + {id});
      Resolve();
    }

    method OnRefused(id: Id)
      modifies this
      ensures var t := Try(old(View()), id);
              View() == if t.attempts[id] >= cfg.maxEventAttempts then RelayPublisher.Resolve(cfg, Refuse(t, id))
                        else Retry(t, id)
    {
      attempts := attempts[id := (if id in attempts then attempts[id] else 0) + 1];
      assert View() == Try(old(View()), id);
      if attempts[id] >= cfg.maxEventAttempts {
        log := log.(refused := log.refused + {id});
        assert View() == Refuse(Try(old(View()), id), id);
        Resolve();
      } else {
        stats := stats.(nRetried := stats.nRetried + 1);
        retries := retries + multiset{id};
      }
    }

    method Pop(w: nat, id: Id)
      requires w < |workers| && workers[w].Open? && id in workers[w].pending
      modifies this
      ensures View() == Popped(old(View()), w, id)
    {
      var o := workers[w];
      workers := workers[w := o.(pending := Without(o.pending, id), slots := o.slots + 1, progress := true)];
      log := log.(matched := log.matched + 1, progressed := log.progressed + if o.progress then 0 else 1);
    }

    /** One turn of `_read` on an `OK` message, matched or not. */
    method OnOkMessage(w: nat, id: Id, accepted: bool)
      requires Valid() && Enabled(cfg, View(), Label.Ok(w, id, accepted))
      modifies this
      ensures View() == Apply(cfg, old(View()), Label.Ok(w, id, accepted)) && Valid()
    {
      InvStep(cfg, View(), Label.Ok(w, id, accepted));
      if id !in workers[w].pending {
        return;
      }
      Pop(w, id);
      if accepted {
        OnAccepted(id);
      } else {
        OnRefused(id);
      }
    }

    /** A worker that is out of attempts; the last one aborts the run. */
    method GiveUp(w: nat)
      requires w < |workers|
      modifies this
      ensures var dead := Put(old(View()), w, Dead).(deadWorkers := old(deadWorkers) + 1);
              View() == if dead.deadWorkers == cfg.connections then RelayPublisher.Finish(cfg, Abort(dead))
                        else dead
    {
      workers := workers[w := Dead];
      deadWorkers := deadWorkers + 1;
      if deadWorkers == cfg.connections {
        stats := stats.(aborted := true);
        Finish();
      }
    }

    /** What `_worker` does once a connection is closed. */
    method AfterClose(w: nat)
      requires Valid() && Enabled(cfg, View(), Label.Closed(w))
      modifies this
      ensures View() == Apply(cfg, old(View()), Label.Closed(w)) && Valid()
    {
      InvStep(cfg, View(), Label.Closed(w));
      var o := workers[w];
      if done {
        workers := workers[w := Exited];
      } else {
        var failures := if o.progress then 0 else o.failures + 1;
        if failures >= cfg.maxConnectAttempts {
          GiveUp(w);
        } else {
          workers := workers[w := Idle(failures)];
          stats := stats.(nReconnects := stats.nReconnects + 1);
        }
      }
    }

    /** The producer raised: the run is over. */
    method ProduceFails()
      requires Valid() && Enabled(cfg, View(), Label.ProduceFails)
      modifies this
      ensures View() == Apply(cfg, old(View()), Label.ProduceFails) && Valid()
    {
      InvStep(cfg, View(), Label.ProduceFails);
      producerFailed, done := true, true;
    }

    /** A retry's delay is over: the event is queued again. */
    method Fire(id: Id)
      requires Valid() && Enabled(cfg, View(), Label.Fire(id))
      modifies this
      ensures View() == Apply(cfg, old(View()), Label.Fire(id)) && Valid()
    {
      InvStep(cfg, View(), Label.Fire(id));
      retries := retries - multiset{id};
      todo := todo + [Some(id)];
    }

    /** The top of a `_worker` turn: leave when all is done, else connect. */
    method Start(w: nat)
      requires Valid() && Enabled(cfg, View(), Label.Start(w))
      modifies this
      ensures View() == Apply(cfg, old(View()), Label.Start(w)) && Valid()
    {
      InvStep(cfg, View(), Label.Start(w));
      workers := workers[w := if done then Exited else Connecting(workers[w].failures)];
    }

    method Connect(w: nat)
      requires Valid() && Enabled(cfg, View(), Label.Connect(w))
      modifies this
      ensures View() == Apply(cfg, old(View()), Label.Connect(w)) && Valid()
    {
      InvStep(cfg, View(), Label.Connect(w));
      workers := workers[w := Open(workers[w].failures, [], cfg.maxInFlight, Acquiring, false)];
    }

    method ConnectFails(w: nat)
      requires Valid() && Enabled(cfg, View(), Label.ConnectFails(w))
      modifies this
      ensures View() == Apply(cfg, old(View()), Label.ConnectFails(w)) && Valid()
    {
      InvStep(cfg, View(), Label.ConnectFails(w));
      workers := workers[w := Closing(workers[w].failures, false)];
    }

    /** `_send` past `in_flight.acquire()`. */
    method Acquire(w: nat)
      requires Valid() && Enabled(cfg, View(), Label.Acquire(w))
      modifies this
      ensures View() == Apply(cfg, old(View()), Label.Acquire(w)) && Valid()
    {
      InvStep(cfg, View(), Label.Acquire(w));
      workers := workers[w := workers[w].(slots := workers[w].slots - 1, sender := Getting)];
    }

    /** `_send` past `ws.send()`. */
    method Sent(w: nat)
      requires Valid() && Enabled(cfg, View(), Label.Sent(w))
      modifies this
      ensures View() == Apply(cfg, old(View()), Label.Sent(w)) && Valid()
    {
      InvStep(cfg, View(), Label.Sent(w));
      workers := workers[w := workers[w].(sender := Acquiring)];
    }

    /** A worker cancelled once the run is over gives back what it held. */
    method Cancel(w: nat)
      requires Valid() && Enabled(cfg, View(), Label.Cancel(w))
      modifies this
      ensures View() == Apply(cfg, old(View()), Label.Cancel(w)) && Valid()
    {
      InvStep(cfg, View(), Label.Cancel(w));
      var o := workers[w];
      if !o.Dead? {
        if o.Open? {
          Requeue(o.pending);
        }
        workers := workers[w := Exited];
      }
    }
  }
}
