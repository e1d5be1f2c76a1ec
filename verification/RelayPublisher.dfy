/** The relay publisher as a step system: a producer, several reconnecting connections and delayed
    retries over one queue, against a relay that may answer anything, drop a connection or stay silent.
    Each step is what one task does between two awaits of app/message_queue_tasks/relay_publisher.py. */
module RelayPublisher {
  import opened Text

  type Id = string

  /** `PublishConfig`, its counts positive as in the defaults. */
  datatype Config = Config(connections: nat, maxInFlight: nat, maxOutstanding: nat, maxEventAttempts: nat,
                           maxConnectAttempts: nat)
  {
    predicate Positive() {
      connections > 0 && maxInFlight > 0 && maxOutstanding > 0 && maxEventAttempts > 0 && maxConnectAttempts > 0
    }
  }

  /** Where `_send` stands: before `in_flight.acquire()`, before `todo.get()`, inside `ws.send()`, or
      returned on a sentinel. */
  datatype Sender = Acquiring | Getting | Sending | Stopped

  /** Where a `_worker` stands. `pending` is the connection's dict, in insertion order. */
  datatype Worker =
    | Idle(failures: nat)
    | Connecting(failures: nat)
    | Open(failures: nat, pending: seq<Id>, slots: nat, sender: Sender, progress: bool)
    | Closing(failures: nat, progress: bool)
    | Dead
    | Exited

  datatype Stats = Stats(nEvents: nat, nAcked: nat, nRetried: nat, nReconnects: nat, aborted: bool)

  /** A record of what was produced, accepted (`acked`) and given up (`refused`); `matched` counts OKs that
      named a pending event, `progressed` the connections that saw one. */
  datatype Log = Log(produced: seq<Id>, acked: set<Id>, refused: set<Id>, matched: nat, progressed: nat)

  /** The publisher's fields, the retry timers and the record. An item's `attempts` is a field of the item
      wherever it is held. */
  datatype State = State(
    todo: seq<Option<Id>>, retries: multiset<Id>, workers: seq<Worker>, attempts: map<Id, nat>, permits: nat,
    producedAll: bool, producerFailed: bool, done: bool, nResolved: nat, deadWorkers: nat, stats: Stats, log: Log)

  datatype Label =
    | Produce(id: Id) | ProduceEnd | ProduceFails | Fire(id: Id)
    | Start(w: nat) | Connect(w: nat) | ConnectFails(w: nat)
    | Acquire(w: nat) | Get(w: nat) | Sent(w: nat)
    | Ok(w: nat, id: Id, accepted: bool) | Drop(w: nat) | Closed(w: nat) | Cancel(w: nat)

  function Init(cfg: Config): State {
    State([], multiset{}, seq(cfg.connections, _ => Idle(0)), map[], cfg.maxOutstanding, false, false, false, 0, 0,
          Stats(0, 0, 0, 0, false), Log([], {}, {}, 0, 0))
  }

  // --- The effect of each step ---

  function Sentinels(n: nat): (r: seq<Option<Id>>)
    ensures |r| == n && forall i :: 0 <= i < n ==> r[i] == None
  {
    seq(n, _ => None)
  }

  function Finish(cfg: Config, s: State): State {
    if s.done then s else s.(done := true, todo := s.todo + Sentinels(cfg.connections))
  }

  function CheckDone(cfg: Config, s: State): State {
    if s.producedAll && s.nResolved == s.stats.nEvents then Finish(cfg, s) else s
  }

  function Resolve(cfg: Config, s: State): State {
    CheckDone(cfg, s.(nResolved := s.nResolved + 1, permits := s.permits + 1))
  }

  function Items(ids: seq<Id>): (r: seq<Option<Id>>)
    ensures |r| == |ids| && forall i :: 0 <= i < |ids| ==> r[i] == Some(ids[i])
  {
    seq(|ids|, i requires 0 <= i < |ids| => Some(ids[i]))
  }

  function Without(ids: seq<Id>, id: Id): (r: seq<Id>)
    requires id in ids
    ensures |r| == |ids| - 1
    ensures multiset(ids) == multiset(r) + multiset{id}
  {
    if ids[0] == id then
      assert ids == [id] + ids[1..];
      ids[1..]
    else
      assert ids == [ids[0]] + ids[1..];
      [ids[0]] + Without(ids[1..], id)
  }

  function Put(s: State, w: nat, worker: Worker): State
    requires w < |s.workers|
  {
    s.(workers := s.workers[w := worker])
  }

  predicate Enabled(cfg: Config, s: State, l: Label) {
    match l
    case Produce(id) => !s.producedAll && !s.producerFailed && s.permits > 0 && id !in s.log.produced
    case ProduceEnd => !s.producedAll && !s.producerFailed
    case ProduceFails => !s.producedAll && !s.producerFailed
    case Fire(id) => id in s.retries
    case Start(w) => w < |s.workers| && s.workers[w].Idle?
    case Connect(w) => w < |s.workers| && s.workers[w].Connecting?
    case ConnectFails(w) => w < |s.workers| && s.workers[w].Connecting?
    case Acquire(w) => w < |s.workers| && s.workers[w].Open? && s.workers[w].sender.Acquiring? && s.workers[w].slots > 0
    case Get(w) => w < |s.workers| && s.workers[w].Open? && s.workers[w].sender.Getting? && s.todo != []
    case Sent(w) => w < |s.workers| && s.workers[w].Open? && s.workers[w].sender.Sending?
    case Ok(w, _, _) => w < |s.workers| && s.workers[w].Open?
    case Drop(w) => w < |s.workers| && s.workers[w].Open?
    case Closed(w) => w < |s.workers| && s.workers[w].Closing?
    case Cancel(w) => w < |s.workers| && s.done
  }

  function Apply(cfg: Config, s: State, l: Label): State
    requires Enabled(cfg, s, l)
  {
    match l
    case Produce(id) =>
      s.(permits := s.permits - 1, stats := s.stats.(nEvents := s.stats.nEvents + 1), todo := s.todo + [Some(id)],
         log := s.log.(produced := s.log.produced + [id]), attempts := s.attempts[id := 0])
    case ProduceEnd => CheckDone(cfg, s.(producedAll := true))
    case ProduceFails => s.(producerFailed := true, done := true)
    case Fire(id) => s.(retries := s.retries - multiset{id}, todo := s.todo + [Some(id)])
    case Start(w) => Put(s, w, if s.done then Exited else Connecting(s.workers[w].failures))
    case Connect(w) => Put(s, w, Open(s.workers[w].failures, [], cfg.maxInFlight, Acquiring, false))
    case ConnectFails(w) => Put(s, w, Closing(s.workers[w].failures, false))
    case Acquire(w) => Put(s, w, s.workers[w].(slots := s.workers[w].slots - 1, sender := Getting))
    case Get(w) =>
      var s' := s.(todo := s.todo[1..]);
      if s.todo[0].None? then Put(s', w, s.workers[w].(sender := Stopped))
      else Put(s', w, s.workers[w].(pending := s.workers[w].pending + [s.todo[0].value], sender := Sending))
    case Sent(w) => Put(s, w, s.workers[w].(sender := Acquiring))
    case Ok(w, id, accepted) => if id in s.workers[w].pending then OnOk(cfg, s, w, id, accepted) else s
    case Drop(w) =>
      Put(s.(todo := s.todo + Items(s.workers[w].pending)), w, Closing(s.workers[w].failures, s.workers[w].progress))
    case Closed(w) => AfterClose(cfg, s, w)
    case Cancel(w) =>
      if s.workers[w].Dead? then s
      else Put(s.(todo := s.todo + if s.workers[w].Open? then Items(s.workers[w].pending) else []), w, Exited)
  }

  function Attempts(s: State, id: Id): nat {
    if id in s.attempts then s.attempts[id] else 0
  }

  /** Taking a matched event out of a connection's pending dict. */
  function Popped(s: State, w: nat, id: Id): State
    requires w < |s.workers| && s.workers[w].Open? && id in s.workers[w].pending
  {
    var o := s.workers[w];
    Put(s, w, o.(pending := Without(o.pending, id), slots := o.slots + 1, progress := true))
    .(log := s.log.(matched := s.log.matched + 1, progressed := s.log.progressed + if o.progress then 0 else 1))
  }

  function OnOk(cfg: Config, s: State, w: nat, id: Id, accepted: bool): State
    requires w < |s.workers| && s.workers[w].Open? && id in s.workers[w].pending
  {
    if accepted then Resolve(cfg, Accept(Popped(s, w, id), id))
    else
      var tried := Try(Popped(s, w, id), id);
      if tried.attempts[id] >= cfg.maxEventAttempts then Resolve(cfg, Refuse(tried, id)) else Retry(tried, id)
  }

  function Accept(s: State, id: Id): State {
    s.(stats := s.stats.(nAcked := s.stats.nAcked + 1), log := s.log.(acked := s.log.acked + {id}))
  }

  function Try(s: State, id: Id): (t: State)
    ensures id in t.attempts
  {
    s.(attempts := s.attempts[id := Attempts(s, id) + 1])
  }

  function Refuse(s: State, id: Id): State {
    s.(log := s.log.(refused := s.log.refused + {id}))
  }

  function Retry(s: State, id: Id): State {
    s.(stats := s.stats.(nRetried := s.stats.nRetried + 1), retries := s.retries + multiset{id})
  }

  function Abort(s: State): State {
    s.(stats := s.stats.(aborted := true))
  }

  function AfterClose(cfg: Config, s: State, w: nat): State
    requires w < |s.workers| && s.workers[w].Closing?
  {
    if s.done then Put(s, w, Exited)
    else
      var failures := if s.workers[w].progress then 0 else s.workers[w].failures + 1;
      if failures >= cfg.maxConnectAttempts then
        var dead := Put(s, w, Dead).(deadWorkers := s.deadWorkers + 1);
        if dead.deadWorkers == cfg.connections then Finish(cfg, Abort(dead)) else dead
      else Put(s, w, Idle(failures)).(stats := s.stats.(nReconnects := s.stats.nReconnects + 1))
  }

  /** The state a run of steps reaches from the start, if each was enabled in its turn. */
  function Run(cfg: Config, ls: seq<Label>): Option<State> {
    if ls == [] then Some(Init(cfg))
    else
      var s := Run(cfg, ls[..|ls| - 1]);
      if s.Some? && Enabled(cfg, s.value, ls[|ls| - 1]) then Some(Apply(cfg, s.value, ls[|ls| - 1])) else None
  }
}
