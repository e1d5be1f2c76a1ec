/** The consumer of app/message_queue_tasks/result_queue.py over Redis' own fields. Every command is one step of
    the `ResultQueue` system, so what holds over its runs holds of these fields between any two commands. */
module ResultQueueTask {
  import opened Text
  import opened ResultQueue
  import opened ResultQueueSafety

  /** Where `handle_one` meets an exception, if anywhere. */
  datatype Stage = AtCount | AtRead | InHandler

  /** `b` is reached from `a` by the steps `ls`. */
  ghost predicate Leads(a: State, ls: seq<Label>, b: State)
    decreases |ls|
  {
    if ls == [] then a == b
    else Enabled(a, ls[0]) && Leads(Apply(a, ls[0]), ls[1..], b)
  }

  ghost predicate Reaches(a: State, b: State) {
    exists ls :: Leads(a, ls, b)
  }

  lemma {:induction false} LeadsOn(a: State, ls: seq<Label>, b: State, l: Label)
    requires Leads(a, ls, b) && Enabled(b, l)
    ensures Leads(a, ls + [l], Apply(b, l))
    decreases |ls|
  {
    if ls == [] {
      assert (ls + [l])[1..] == [];
      assert Leads(Apply(b, l), [], Apply(b, l));
    } else {
      assert (ls + [l])[1..] == ls[1..] + [l];
      LeadsOn(Apply(a, ls[0]), ls[1..], b, l);
    }
  }

  lemma ReachesOn(a: State, b: State, l: Label)
    requires Reaches(a, b) && Enabled(b, l)
    ensures Reaches(a, Apply(b, l))
  {
    var ls :| Leads(a, ls, b);
    LeadsOn(a, ls, b, l);
  }

  /** What every step keeps, every stretch of steps keeps. */
  lemma {:induction false} LeadsInv(a: State, ls: seq<Label>, b: State)
    requires Leads(a, ls, b) && Inv(a)
    ensures Inv(b)
    decreases |ls|
  {
    if ls != [] {
      InvStep(a, ls[0]);
      LeadsInv(Apply(a, ls[0]), ls[1..], b);
    }
  }

  lemma ReachesInv(a: State, b: State)
    requires Reaches(a, b) && Inv(a)
    ensures Inv(b)
  {
    var ls :| Leads(a, ls, b);
    LeadsInv(a, ls, b);
  }

  /** What letting a message go leaves of the payloads: an inline message needs none; of a keyed one the queue is
      no longer pending, and the last to let go deletes it. */
  predicate LeftWith(m: Message, q: Queue, payloads: set<Key>, pending: map<Key, set<Queue>>, payloads': set<Key>,
                     pending': map<Key, set<Queue>>)
  {
    && (m.key.None? ==> payloads' == payloads && pending' == pending)
    && (m.key.Some? && m.key.value in pending ==>
          var k := m.key.value;
          if pending[k] - {q} == {} then payloads' == payloads - {k} && k !in pending'
          else payloads' == payloads && k in pending' && pending'[k] == pending[k] - {q})
  }

  /** One consumer and what it sees of Redis: its own lists and counters, and the shared payloads. */
  class Consumer {
    const queue: Queue
    var waiting: seq<Message>
    var processing: seq<Message>
    var attempts: map<Message, nat>
    var payloads: set<Key>
    var pending: map<Key, set<Queue>>
    ghost var model: State

    ghost predicate Valid()
      reads this
    {
      && queue in model.queues
      && waiting == Own().waiting && processing == Own().processing && attempts == Own().attempts
      && payloads == model.store.payloads && pending == model.store.pending
    }

    ghost function Own(): QueueState
      requires queue in model.queues
      reads this
    {
      model.queues[queue]
    }

    constructor (q: Queue, qs: set<Queue>)
      requires q in qs
      ensures Valid() && queue == q && model == Init(qs)
    {
      queue := q;
      waiting, processing, attempts := [], [], map[];
      payloads, pending, model := {}, map[], Init(qs);
    }

    /** `lmove(processing, queue, RIGHT, LEFT)` */
    method RecoverOne() returns (moved: bool)
      requires Valid() && Own().phase.Recovering?
      modifies this
      ensures Valid() && model == Apply(old(model), Label.RecoverOne(queue))
      ensures moved == (old(processing) != [])
    {
      moved := processing != [];
      if moved {
        var n := |processing| - 1;
        waiting, processing := [processing[n]] + waiting, processing[..n];
      }
      model := Apply(model, Label.RecoverOne(queue));
    }

    /** `blmove(queue, processing)` */
    method Take() returns (raw: Message)
      requires Valid() && Own().phase.Waiting? && waiting != []
      modifies this
      ensures Valid() && model == Apply(old(model), Label.Take(queue))
      ensures raw == old(waiting[0]) && Own().phase == Taken(raw)
    {
      raw := waiting[0];
      processing, waiting := processing + [raw], waiting[1..];
      model := Apply(model, Label.Take(queue));
    }

    /** `incr(attempts_key)` */
    method Count(m: Message) returns (n: nat)
      requires Valid() && Own().phase == Taken(m)
      modifies this
      ensures Valid() && model == Apply(old(model), Label.Count(queue))
      ensures Own().phase == Counted(m, n) && n == Get(old(attempts), m) + 1
      ensures attempts == old(attempts)[m := n]
    {
      n := Get(attempts, m) + 1;
      attempts := attempts[m := n];
      model := Apply(model, Label.Count(queue));
    }

    /** `lrem(processing, 1, raw)` */
    method Ack(m: Message)
      requires Valid() && Own().phase == ToAck(m)
      modifies this
      ensures Valid() && model == Apply(old(model), Label.Ack(queue))
    {
      processing := Remove(processing, m);
      model := Apply(model, Label.Ack(queue));
    }

    /** `delete(attempts_key)` */
    method Clear(m: Message)
      requires Valid() && Own().phase == ToClear(m)
      modifies this
      ensures Valid() && model == Apply(old(model), Label.Clear(queue))
      ensures attempts == old(attempts) - {m}
    {
      attempts := attempts - {m};
      model := Apply(model, Label.Clear(queue));
    }

    /** `srem(pending, queue)` */
    method Release(m: Message, k: Key)
      requires Valid() && Own().phase == ToRelease(m) && m.key == Some(k)
      modifies this
      ensures Valid() && model == Apply(old(model), Label.Release(queue))
      ensures Own() == old(Own()).(phase := ToCheck(m)) && payloads == old(payloads)
      ensures k in pending && pending[k] == (if k in old(pending) then old(pending)[k] else {}) - {queue}
    {
      pending := pending[k := (if k in pending then pending[k] else {}) - {queue}];
      model := Apply(model, Label.Release(queue));
    }

    /** `scard(pending)`, and `delete(key, pending)` where it is 0 */
    method Sweep(m: Message, k: Key)
      requires Valid() && Own().phase == ToCheck(m) && m.key == Some(k) && k in pending
      modifies this
      ensures Valid() && Reaches(old(model), model) && Own() == old(Own()).(phase := Waiting)
      ensures if old(pending)[k] == {} then payloads == old(payloads) - {k} && pending == old(pending) - {k}
              else payloads == old(payloads) && pending == old(pending)
    {
      ghost var was := model;
      assert Leads(was, [], was);
      ReachesOn(was, was, Label.Check(queue));
      model := Apply(model, Label.Check(queue));
      if pending[k] == {} {
        ReachesOn(was, model, Label.Delete(queue));
        payloads, pending := payloads - {k}, pending - {k};
        model := Apply(model, Label.Delete(queue));
      }
    }

    /** Requeue interrupted messages at the head, in their order. */
    method RecoverInFlight() returns (recovered: nat)
      requires Valid() && Own().phase.Recovering?
      modifies this
      ensures Valid() && Reaches(old(model), model) && Own().phase.Waiting?
      ensures processing == [] && waiting == old(processing) + old(waiting)
      ensures attempts == old(attempts) && payloads == old(payloads) && pending == old(pending)
      ensures recovered == |old(processing)|
    {
      recovered := 0;
      ghost var was := model;
      assert Leads(was, [], was);
      var moved := true;
      while moved
        invariant Valid() && Reaches(was, model)
        invariant if moved then Own().phase.Recovering? else Own().phase.Waiting? && processing == []
        invariant processing + waiting == old(processing) + old(waiting)
        invariant attempts == old(attempts) && payloads == old(payloads) && pending == old(pending)
        invariant recovered + |processing| == |old(processing)|
        decreases |processing|, moved
      {
        moved := RecoverStep(was);
        if moved {
          recovered := recovered + 1;
        }
      }
    }

    method RecoverStep(ghost was: State) returns (moved: bool)
      requires Valid() && Own().phase.Recovering? && Reaches(was, model)
      modifies this
      ensures Valid() && Reaches(was, model)
      ensures if moved then Own().phase.Recovering? else Own().phase.Waiting? && processing == []
      ensures processing + waiting == old(processing) + old(waiting)
      ensures attempts == old(attempts) && payloads == old(payloads) && pending == old(pending)
      ensures |processing| + (if moved then 1 else 0) == |old(processing)|
    {
      ghost var xs, ys := processing, waiting;
      ReachesOn(was, model, Label.RecoverOne(queue));
      moved := RecoverOne();
      if moved {
        assert xs[..|xs| - 1] + ([xs[|xs| - 1]] + ys) == xs + ys;
      }
    }

    /** The start of a try: count it, and choose between the handler and `on_lost`. */
    method Start(m: Message, fault: Option<Stage>) returns (started: bool)
      requires Valid() && Own().phase == Taken(m)
      modifies this
      ensures Valid() && Reaches(old(model), model)
      ensures Own().phase == if started then Handling(m) else Losing(m)
      ensures !started ==> m in Own().ran
      ensures started <==> fault != Some(AtCount) && fault != Some(AtRead)
                           && Get(old(attempts), m) < MAX_ATTEMPTS && (m.key.Some? ==> m.key.value in payloads)
      ensures forall x :: Get(attempts, x) == Get(old(attempts), x) + if x == m && fault != Some(AtCount) then 1 else 0
      ensures waiting == old(waiting) && processing == old(processing) && payloads == old(payloads) && pending == old(pending)
    {
      started := false;
      ghost var was := model;
      assert Leads(was, [], was);
      if fault == Some(AtCount) {
        ReachesOn(was, model, Label.Fault(queue));
        model := Apply(model, Label.Fault(queue));
        return;
      }
      ReachesOn(was, model, Label.Count(queue));
      var n := Count(m);
      if fault == Some(AtRead) {
        ReachesOn(was, model, Label.Fault(queue));
        model := Apply(model, Label.Fault(queue));
        return;
      }
      ReachesOn(was, model, Label.Begin(queue));
      model := Apply(model, Label.Begin(queue));
      started := n <= MAX_ATTEMPTS && (m.key.None? || m.key.value in payloads);
    }

    /** One message up to where it is settled: run the handler, or tell `on_lost` why not. */
    method Settle(m: Message, fault: Option<Stage>) returns (handled: bool)
      requires Valid() && Own().phase == Taken(m)
      modifies this
      ensures Valid() && Reaches(old(model), model) && Own().phase == ToAck(m) && m in Own().ran
      ensures handled <==> fault.None? && Get(old(attempts), m) < MAX_ATTEMPTS && (m.key.Some? ==> m.key.value in payloads)
      ensures forall x :: Get(attempts, x) == Get(old(attempts), x) + if x == m && fault != Some(AtCount) then 1 else 0
      ensures waiting == old(waiting) && processing == old(processing) && payloads == old(payloads) && pending == old(pending)
    {
      ghost var was := model;
      handled := Start(m, fault);
      assert fault.Some? ==> fault.value.AtCount? || fault.value.AtRead? || fault.value.InHandler?;
      if handled && fault == Some(InHandler) {
        handled := false;
        ReachesOn(was, model, Label.Fault(queue));
        model := Apply(model, Label.Fault(queue));
      }
      ghost var last := if handled then Label.HandlerDone(queue) else Label.LostDone(queue);
      ReachesOn(was, model, last);
      model := Apply(model, last);
    }

    /** A settled message is acked, its counter cleared, and this queue's hold on the payload released, the last
        one deleting it. */
    method LetGo(m: Message)
      requires Valid() && Inv(model) && Own().phase == ToAck(m)
      modifies this
      ensures Valid() && Inv(model) && Own().phase.Waiting? && Own().ran == old(Own().ran)
      ensures waiting == old(waiting) && processing == [] && attempts == old(attempts) - {m}
      ensures LeftWith(m, queue, old(payloads), old(pending), payloads, pending)
    {
      InvStep(model, Label.Ack(queue));
      Ack(m);
      InvStep(model, Label.Clear(queue));
      Clear(m);
      if m.key.Some? {
        InvStep(model, Label.Release(queue));
        Release(m, m.key.value);
        ghost var mid := model;
        Sweep(m, m.key.value);
        ReachesInv(mid, model);
      }
      IdleIsEmpty(model, queue);
    }

    /** A call nothing interrupts: the message is settled and let go. */
    method HandleOne(m: Message, fault: Option<Stage>) returns (handled: bool)
      requires Valid() && Inv(model) && Own().phase == Taken(m)
      modifies this
      ensures Valid() && Inv(model) && Own().phase.Waiting? && m in Own().ran
      ensures handled <==> fault.None? && Get(old(attempts), m) < MAX_ATTEMPTS && (m.key.Some? ==> m.key.value in old(payloads))
      ensures waiting == old(waiting) && processing == [] && m !in attempts
      ensures forall x :: x != m ==> Get(attempts, x) == Get(old(attempts), x)
      ensures LeftWith(m, queue, old(payloads), old(pending), payloads, pending)
    {
      ghost var was := model;
      handled := Settle(m, fault);
      ReachesInv(was, model);
      LetGo(m);
    }
  }

  lemma IdleIsEmpty(s: State, q: Queue)
    requires Inv(s) && q in s.queues && s.queues[q].phase.Waiting?
    ensures s.queues[q].processing == []
  {
    assert Local(s.queues[q]);
  }
}
