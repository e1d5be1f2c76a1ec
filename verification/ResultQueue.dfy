/** The crash-tolerant result queues as a step system: one consumer per queue, each step one Redis command
    of app/message_queue_tasks/result_queue.py, with a crash possible between any two. */
module ResultQueue {
  import opened Text
  import opened Sorting

  type Queue = string
  type Key = string

  const MAX_ATTEMPTS: nat := 3

  /** An envelope; `key` names the shared payload, None where the payload is inline. */
  datatype Message = Message(privateId: nat, key: Option<Key>)

  /** Where a consumer stands: the command it runs next. `Recovering` is the start of a process. */
  datatype Phase =
    | Recovering
    | Waiting
    | Taken(m: Message)
    | Counted(m: Message, attempts: nat)
    | Handling(m: Message)
    | Losing(m: Message)
    | ToAck(m: Message)
    | ToClear(m: Message)
    | ToRelease(m: Message)
    | ToCheck(m: Message)
    | ToDelete(m: Message)

  /** One queue: its two Redis lists and attempt counters, its consumer, and a record of all that arrived,
      was acked, how often each handler started, and which deliveries ran the handler or `on_lost`. */
  datatype QueueState = QueueState(waiting: seq<Message>, processing: seq<Message>, attempts: map<Message, nat>, phase: Phase,
                                   arrivals: seq<Message>, acked: seq<Message>, starts: map<Message, nat>, ran: set<Message>)

  /** The payloads and their pending sets, with a record of which message and queues each was stored for,
      and the keys a crash left behind for good. */
  datatype Store = Store(payloads: set<Key>, pending: map<Key, set<Queue>>, envelope: map<Key, Message>,
                         named: map<Key, set<Queue>>, leaked: set<Key>)

  datatype State = State(queues: map<Queue, QueueState>, store: Store)

  datatype Label =
    | Publish(m: Message, names: set<Queue>) | Inline(q: Queue, m: Message)
    | RecoverOne(q: Queue) | Take(q: Queue) | Count(q: Queue) | Begin(q: Queue) | Fault(q: Queue)
    | HandlerDone(q: Queue) | LostDone(q: Queue)
    | Ack(q: Queue) | Clear(q: Queue) | Release(q: Queue) | Check(q: Queue) | Delete(q: Queue)
    | Crash(q: Queue)

  function InitQueue(): QueueState {
    QueueState([], [], map[], Recovering, [], [], map[], {})
  }

  function Init(qs: set<Queue>): State {
    State(map q | q in qs :: InitQueue(), Store({}, map[], map[], map[], {}))
  }

  function Get(m: map<Message, nat>, x: Message): nat {
    if x in m then m[x] else 0
  }

  function PendingOf(store: Store, k: Key): set<Queue> {
    if k in store.pending then store.pending[k] else {}
  }

  /** The payload key a consumer is letting go of, after its ack. */
  predicate AfterAck(p: Phase) {
    p.ToClear? || p.ToRelease? || p.ToCheck? || p.ToDelete?
  }

  predicate Busy(p: Phase) {
    p.Taken? || p.Counted? || p.Handling? || p.Losing? || p.ToAck?
  }

  function Arrive(c: QueueState, m: Message): QueueState {
    c.(waiting := c.waiting + [m], arrivals := c.arrivals + [m])
  }

  // --- What one command does to its own queue ---

  function Recover(c: QueueState): QueueState {
    if c.processing == [] then c.(phase := Waiting)
    else
      var n := |c.processing| - 1;
      c.(processing := c.processing[..n], waiting := [c.processing[n]] + c.waiting)
  }

  function TakeNext(c: QueueState): QueueState
    requires c.waiting != []
  {
    c.(waiting := c.waiting[1..], processing := c.processing + [c.waiting[0]], phase := Taken(c.waiting[0]))
  }

  function CountAttempt(c: QueueState): QueueState
    requires c.phase.Taken?
  {
    var n := Get(c.attempts, c.phase.m) + 1;
    c.(attempts := c.attempts[c.phase.m := n], phase := Counted(c.phase.m, n))
  }

  /** Give up after too many attempts, or where the payload is gone; else start the handler. */
  function StartHandling(c: QueueState, payloads: set<Key>): QueueState
    requires c.phase.Counted?
  {
    var m := c.phase.m;
    if c.phase.attempts > MAX_ATTEMPTS || (m.key.Some? && m.key.value !in payloads)
    then c.(phase := Losing(m), ran := c.ran + {m})
    else c.(phase := Handling(m), starts := c.starts[m := Get(c.starts, m) + 1])
  }

  /** `lrem(processing, 1, raw)`: the first occurrence goes. */
  function Remove(xs: seq<Message>, m: Message): seq<Message> {
    if xs == [] then [] else if xs[0] == m then xs[1..] else [xs[0]] + Remove(xs[1..], m)
  }

  function AckMessage(c: QueueState): QueueState
    requires c.phase.ToAck?
  {
    c.(processing := Remove(c.processing, c.phase.m), acked := c.acked + [c.phase.m], phase := ToClear(c.phase.m))
  }

  function ClearAttempts(c: QueueState): QueueState
    requires c.phase.ToClear?
  {
    c.(attempts := c.attempts - {c.phase.m}, phase := if c.phase.m.key.Some? then ToRelease(c.phase.m) else Waiting)
  }

  // --- Steps ---

  predicate Enabled(s: State, l: Label) {
    match l
    case Publish(m, names) =>
      && m.key.Some? && m.key.value !in s.store.envelope && names != {}
      && (forall q :: q in names ==> q in s.queues && m !in s.queues[q].arrivals)
    case Inline(q, m) => q in s.queues && m.key.None? && m !in s.queues[q].arrivals
    case RecoverOne(q) => q in s.queues && s.queues[q].phase.Recovering?
    case Take(q) => q in s.queues && s.queues[q].phase.Waiting? && s.queues[q].waiting != []
    case Count(q) => q in s.queues && s.queues[q].phase.Taken?
    case Begin(q) => q in s.queues && s.queues[q].phase.Counted?
    case Fault(q) => q in s.queues && (s.queues[q].phase.Taken? || s.queues[q].phase.Counted? || s.queues[q].phase.Handling?)
    case HandlerDone(q) => q in s.queues && s.queues[q].phase.Handling?
    case LostDone(q) => q in s.queues && s.queues[q].phase.Losing?
    case Ack(q) => q in s.queues && s.queues[q].phase.ToAck?
    case Clear(q) => q in s.queues && s.queues[q].phase.ToClear?
    case Release(q) => q in s.queues && s.queues[q].phase.ToRelease? && s.queues[q].phase.m.key.Some?
    case Check(q) => q in s.queues && s.queues[q].phase.ToCheck? && s.queues[q].phase.m.key.Some?
    case Delete(q) => q in s.queues && s.queues[q].phase.ToDelete? && s.queues[q].phase.m.key.Some?
    case Crash(q) => q in s.queues
  }

  function Put(s: State, q: Queue, c: QueueState): State {
    s.(queues := s.queues[q := c])
  }

  /** `srem(pending, queue)`. */
  function ReleaseKey(store: Store, k: Key, q: Queue): Store {
    store.(pending := store.pending[k := PendingOf(store, k) - {q}])
  }

  /** `delete(key, pending)`. */
  function DeleteKey(store: Store, k: Key): Store {
    store.(payloads := store.payloads - {k}, pending := store.pending - {k})
  }

  /** Whether a crash of this consumer leaves its payload behind: between its ack and its release, where it
      stays pending; or after its release, where nobody else is left to delete what nobody waits for. */
  predicate Leaks(s: State, q: Queue)
    requires q in s.queues
  {
    var p := s.queues[q].phase;
    AfterAck(p) && p.m.key.Some? &&
    (|| Releasing(p, p.m)
     || (p.m.key.value in s.store.payloads && PendingOf(s.store, p.m.key.value) == {}
         && forall r :: r in s.queues && r != q ==> !Deleting(s.queues[r].phase, p.m)))
  }

  function Abandon(s: State, q: Queue): Store
    requires q in s.queues
  {
    if Leaks(s, q) then s.store.(leaked := s.store.leaked + {s.queues[q].phase.m.key.value}) else s.store
  }

  function Apply(s: State, l: Label): State
    requires Enabled(s, l)
  {
    match l
    case Publish(m, names) =>
      var k := m.key.value;
      State(map q | q in s.queues :: if q in names then Arrive(s.queues[q], m) else s.queues[q],
            s.store.(payloads := s.store.payloads + {k}, pending := s.store.pending[k := names],
                     envelope := s.store.envelope[k := m], named := s.store.named[k := names]))
    case Inline(q, m) => Put(s, q, Arrive(s.queues[q], m))
    case RecoverOne(q) => Put(s, q, Recover(s.queues[q]))
    case Take(q) => Put(s, q, TakeNext(s.queues[q]))
    case Count(q) => Put(s, q, CountAttempt(s.queues[q]))
    case Begin(q) => Put(s, q, StartHandling(s.queues[q], s.store.payloads))
    case Fault(q) => Put(s, q, s.queues[q].(phase := Losing(s.queues[q].phase.m), ran := s.queues[q].ran + {s.queues[q].phase.m}))
    case HandlerDone(q) => Put(s, q, s.queues[q].(phase := ToAck(s.queues[q].phase.m), ran := s.queues[q].ran + {s.queues[q].phase.m}))
    case LostDone(q) => Put(s, q, s.queues[q].(phase := ToAck(s.queues[q].phase.m)))
    case Ack(q) => Put(s, q, AckMessage(s.queues[q]))
    case Clear(q) => Put(s, q, ClearAttempts(s.queues[q]))
    case Release(q) =>
      var m := s.queues[q].phase.m;
      Put(s, q, s.queues[q].(phase := ToCheck(m))).(store := ReleaseKey(s.store, m.key.value, q))
    case Check(q) =>
      var m := s.queues[q].phase.m;
      Put(s, q, s.queues[q].(phase := if PendingOf(s.store, m.key.value) == {} then ToDelete(m) else Waiting))
    case Delete(q) =>
      var m := s.queues[q].phase.m;
      Put(s, q, s.queues[q].(phase := Waiting)).(store := DeleteKey(s.store, m.key.value))
    case Crash(q) =>
      Put(s, q, s.queues[q].(phase := Recovering)).(store := Abandon(s, q))
  }

  function Run(qs: set<Queue>, ls: seq<Label>): Option<State> {
    if ls == [] then Some(Init(qs))
    else
      var s := Run(qs, ls[..|ls| - 1]);
      if s.Some? && Enabled(s.value, ls[|ls| - 1]) then Some(Apply(s.value, ls[|ls| - 1])) else None
  }

  // --- What each queue keeps ---

  /** Nothing is lost or reordered, whatever crashes: the acked, the one in hand and the waiting are the
      arrivals, in order. */
  ghost predicate InOrder(c: QueueState) {
    && c.acked + c.processing + c.waiting == c.arrivals
    && Distinct(c.arrivals)
    && (Busy(c.phase) ==> c.processing == [c.phase.m])
    && (c.phase.Waiting? || AfterAck(c.phase) ==> c.processing == [])
    && |c.processing| <= 1
  }

  /** A handler starts at most once per counted attempt, and never after the last allowed one. */
  ghost predicate Attempted(c: QueueState) {
    && (forall m :: Get(c.starts, m) <= MAX_ATTEMPTS)
    && (forall m :: m !in c.acked ==> Get(c.starts, m) <= Get(c.attempts, m))
    && (c.phase.Counted? ==> c.phase.attempts == Get(c.attempts, c.phase.m) && Get(c.starts, c.phase.m) < c.phase.attempts)
  }

  ghost predicate Accounted(c: QueueState) {
    && (forall m :: m in c.acked ==> m in c.ran)
    && (c.phase.Losing? || c.phase.ToAck? ==> c.phase.m in c.ran)
    && (AfterAck(c.phase) ==> c.phase.m in c.acked)
    && (c.phase.ToRelease? || c.phase.ToCheck? || c.phase.ToDelete? ==> c.phase.m.key.Some?)
  }

  ghost predicate Local(c: QueueState) {
    InOrder(c) && Attempted(c) && Accounted(c)
  }

  /** A keyed message in a queue is the envelope of its payload, and that queue is named for it. */
  ghost predicate Known(store: Store, q: Queue, c: QueueState) {
    forall m :: m in c.arrivals && m.key.Some? ==>
      && m.key.value in store.envelope && store.envelope[m.key.value] == m
      && m.key.value in store.named && q in store.named[m.key.value]
  }

  // --- What the payloads keep ---

  predicate Unacked(s: State, q: Queue, m: Message) {
    q in s.queues && m in s.queues[q].arrivals && m !in s.queues[q].acked
  }

  /** A queue that has not acked is still pending and its payload is there; once released it has acked. */
  ghost predicate Guarded(s: State, k: Key)
    requires k in s.store.envelope && k in s.store.named
  {
    && s.store.envelope[k].key == Some(k)
    && PendingOf(s.store, k) <= s.store.named[k]
    && (forall q :: q in s.store.named[k] ==> q in s.queues && s.store.envelope[k] in s.queues[q].arrivals)
    && (forall q :: q in s.store.named[k] && Unacked(s, q, s.store.envelope[k]) ==>
          k in s.store.payloads && q in PendingOf(s.store, k))
    && (forall q :: q in s.queues && s.queues[q].phase.ToDelete? && s.queues[q].phase.m.key == Some(k) ==>
          PendingOf(s.store, k) == {})
  }

  /** A consumer on its way to release is pending, one past it is not, and what anybody is pending on is there. */
  ghost predicate Held(s: State, k: Key)
    requires k in s.store.envelope
  {
    && (forall q :: q in s.queues && Releasing(s.queues[q].phase, s.store.envelope[k]) ==> q in PendingOf(s.store, k))
    && (forall q :: q in s.queues && Deleting(s.queues[q].phase, s.store.envelope[k]) ==> q !in PendingOf(s.store, k))
    && (PendingOf(s.store, k) != {} ==> k in s.store.payloads)
  }

  /** Whoever is pending is still to release, and a payload nobody is pending on is about to be deleted. */
  ghost predicate Due(s: State, k: Key)
    requires k in s.store.envelope
  {
    && (forall q :: q in PendingOf(s.store, k) ==>
          q in s.queues && (Unacked(s, q, s.store.envelope[k]) || Releasing(s.queues[q].phase, s.store.envelope[k])))
    && (k in s.store.payloads && PendingOf(s.store, k) == {} ==>
          exists q :: q in s.queues && Deleting(s.queues[q].phase, s.store.envelope[k]))
  }

  /** This consumer acked and will never release. */
  predicate Stuck(s: State, q: Queue, m: Message) {
    q in s.queues && m in s.queues[q].acked && !Releasing(s.queues[q].phase, m)
  }

  /** The payload is there for good: a stuck consumer is pending, or nobody is and nobody is about to delete. */
  ghost predicate Left(s: State, k: Key)
    requires k in s.store.envelope
  {
    && k in s.store.payloads
    && (|| (exists q :: q in PendingOf(s.store, k) && Stuck(s, q, s.store.envelope[k]))
        || (PendingOf(s.store, k) == {} && forall q :: q in s.queues ==> !Deleting(s.queues[q].phase, s.store.envelope[k])))
  }

  ghost predicate Collected(s: State, k: Key)
    requires k in s.store.envelope && k in s.store.named
  {
    Held(s, k) && if k in s.store.leaked then Left(s, k) else Due(s, k)
  }

  predicate Releasing(p: Phase, m: Message) {
    p == ToClear(m) || p == ToRelease(m)
  }

  predicate Deleting(p: Phase, m: Message) {
    p == ToCheck(m) || p == ToDelete(m)
  }

  ghost predicate Inv(s: State) {
    && (forall q :: q in s.queues ==> Local(s.queues[q]) && Known(s.store, q, s.queues[q]))
    && s.store.envelope.Keys == s.store.named.Keys && s.store.leaked <= s.store.envelope.Keys
    && (forall k :: k in s.store.envelope ==> Guarded(s, k) && Collected(s, k))
  }
}
