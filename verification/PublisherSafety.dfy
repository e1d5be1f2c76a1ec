/** What every run of the relay publisher keeps, under any relay: each event in exactly one place, the
    caps, when it finishes and what a clean finish means, and how much work it can do. */
module PublisherSafety {
  import opened Text
  import opened Sorting
  import opened RelayPublisher

  // --- Sums over the workers ---

  /** What is summed: how often a connection holds an event, how many workers gave up, how many have no
      connection to come back to, and what a worker
      may still spend on reconnects against the credit its matched OKs bring. */
  datatype Measure = HeldOf(id: Id) | DeadOf | EndedOf | CreditOf(max: nat)

  function Value(m: Measure, w: Worker): int {
    match m
    case HeldOf(id) => if w.Open? then multiset(w.pending)[id] else 0
    case DeadOf => if w.Dead? then 1 else 0
    case EndedOf => if w.Closing? || w.Dead? || w.Exited? then 1 else 0
    case CreditOf(max) =>
      match w
      case Idle(f) => f
      case Connecting(f) => f
      case Open(f, _, _, _, progress) => if progress then f - max else f
      case Closing(f, progress) => if progress then f - max else f
      case _ => max - 1
  }

  function Sum(m: Measure, ws: seq<Worker>): int {
    if ws == [] then 0 else Sum(m, ws[..|ws| - 1]) + Value(m, ws[|ws| - 1])
  }

  lemma {:induction false} SumUpdate(m: Measure, ws: seq<Worker>, i: nat, w: Worker)
    requires i < |ws|
    ensures Sum(m, ws[i := w]) == Sum(m, ws) - Value(m, ws[i]) + Value(m, w)
  {
    var n := |ws| - 1;
    if i == n {
      assert ws[i := w][..n] == ws[..n];
    } else {
      SumUpdate(m, ws[..n], i, w);
      assert ws[i := w][..n] == ws[..n][i := w];
    }
  }

  lemma {:induction false} SumBounds(m: Measure, ws: seq<Worker>, lo: int, hi: int)
    requires forall w :: w in ws ==> lo <= Value(m, w) <= hi
    ensures |ws| * lo <= Sum(m, ws) <= |ws| * hi
  {
    if ws != [] {
      var n := |ws| - 1;
      assert ws[n] in ws;
      SumBounds(m, ws[..n], lo, hi);
      OneMore(n, lo);
      OneMore(n, hi);
    }
  }

  lemma OneMore(n: nat, x: int)
    ensures (n + 1) * x == n * x + x
  {
  }

  lemma {:induction false} HeldNonnegative(id: Id, ws: seq<Worker>)
    ensures 0 <= Sum(HeldOf(id), ws)
    ensures forall i :: 0 <= i < |ws| ==> Value(HeldOf(id), ws[i]) <= Sum(HeldOf(id), ws)
  {
    if ws != [] {
      HeldNonnegative(id, ws[..|ws| - 1]);
      assert forall i :: 0 <= i < |ws| - 1 ==> ws[..|ws| - 1][i] == ws[i];
    }
  }

  lemma HeldPair(id: Id, ws: seq<Worker>, i: nat, j: nat)
    requires i < j < |ws|
    ensures Value(HeldOf(id), ws[i]) + Value(HeldOf(id), ws[j]) <= Sum(HeldOf(id), ws)
  {
    var without := ws[j := Dead];
    SumUpdate(HeldOf(id), ws, j, Dead);
    HeldNonnegative(id, without);
    assert without[i] == ws[i];
  }

  lemma {:induction false} AllDead(ws: seq<Worker>)
    ensures 0 <= Sum(DeadOf, ws) <= |ws|
    ensures Sum(DeadOf, ws) == |ws| <==> forall i :: 0 <= i < |ws| ==> ws[i].Dead?
  {
    if ws != [] {
      var n := |ws| - 1;
      AllDead(ws[..n]);
      assert forall i :: 0 <= i < n ==> ws[..n][i] == ws[i];
    }
  }

  // --- Where events are ---

  function InQueue(todo: seq<Option<Id>>, id: Id): nat {
    if todo == [] then 0 else InQueue(todo[..|todo| - 1], id) + if todo[|todo| - 1] == Some(id) then 1 else 0
  }

  lemma {:induction false} QueueConcat(a: seq<Option<Id>>, b: seq<Option<Id>>, id: Id)
    ensures InQueue(a + b, id) == InQueue(a, id) + InQueue(b, id)
  {
    if b == [] {
      assert a + b == a;
    } else {
      var n := |b| - 1;
      QueueConcat(a, b[..n], id);
      assert (a + b)[..|a + b| - 1] == a + b[..n];
    }
  }

  lemma {:induction false} QueueOfSentinels(n: nat, id: Id)
    ensures InQueue(Sentinels(n), id) == 0
  {
    if n > 0 {
      QueueOfSentinels(n - 1, id);
      assert Sentinels(n)[..n - 1] == Sentinels(n - 1);
    }
  }

  lemma {:induction false} QueueOfItems(ids: seq<Id>, id: Id)
    ensures InQueue(Items(ids), id) == multiset(ids)[id]
  {
    if ids != [] {
      var n := |ids| - 1;
      QueueOfItems(ids[..n], id);
      assert Items(ids)[..n] == Items(ids[..n]);
      assert ids == ids[..n] + [ids[n]];
    }
  }

  lemma QueueHead(todo: seq<Option<Id>>, id: Id)
    requires todo != []
    ensures InQueue(todo, id) == (if todo[0] == Some(id) then 1 else 0) + InQueue(todo[1..], id)
  {
    QueueConcat([todo[0]], todo[1..], id);
    assert todo == [todo[0]] + todo[1..];
    assert [todo[0]][..0] == [];
  }

  lemma QueueTail(todo: seq<Option<Id>>, x: Id, id: Id)
    ensures InQueue(todo + [Some(x)], id) == InQueue(todo, id) + if x == id then 1 else 0
  {
    assert (todo + [Some(x)])[..|todo|] == todo;
  }

  /** How many places hold an event: the queue, the connections' pending dicts, the retry timers, or one
      of the two ways it was settled. */
  ghost function Places(s: State, id: Id): int {
    InQueue(s.todo, id) + Sum(HeldOf(id), s.workers) + s.retries[id]
    + (if id in s.log.acked then 1 else 0) + (if id in s.log.refused then 1 else 0)
  }

  // --- The invariant ---

  /** Each produced event is in exactly one place, and the counters count. */
  ghost predicate Placed(s: State) {
    && Distinct(s.log.produced)
    && (forall id :: Places(s, id) == if id in s.log.produced then 1 else 0)
    && s.stats.nEvents == |s.log.produced|
    && s.stats.nAcked == |s.log.acked|
    && s.nResolved == |s.log.acked| + |s.log.refused|
  }

  predicate Slotted(w: Worker, max: nat) {
    w.Open? ==> |w.pending| + w.slots + (if w.sender == Getting || w.sender == Stopped then 1 else 0) == max
  }

  /** The two semaphores. */
  ghost predicate Capped(cfg: Config, s: State) {
    && |s.workers| == cfg.connections
    && s.permits + s.stats.nEvents == cfg.maxOutstanding + s.nResolved
    && forall i :: 0 <= i < |s.workers| ==> Slotted(s.workers[i], cfg.maxInFlight)
  }

  predicate Fit(w: Worker, max: nat, done: bool) {
    match w
    case Dead => true
    case Exited => done
    case _ => w.failures < max
  }

  /** Workers give up in time, and the run aborts exactly when all have. */
  ghost predicate Staffed(cfg: Config, s: State) {
    && (forall i :: 0 <= i < |s.workers| ==> Fit(s.workers[i], cfg.maxConnectAttempts, s.done))
    && s.deadWorkers == Sum(DeadOf, s.workers)
    && (s.stats.aborted <==> s.deadWorkers == cfg.connections)
  }

  /** The run is over exactly when all is resolved, or every connection gave up, or the producer failed. */
  ghost predicate EndsRight(s: State) {
    s.done <==> s.stats.aborted || s.producerFailed || (s.producedAll && s.nResolved == s.stats.nEvents)
  }

  ghost function SumAttempts(ids: seq<Id>, attempts: map<Id, nat>): nat
    requires forall id :: id in ids ==> id in attempts
  {
    if ids == [] then 0 else SumAttempts(ids[..|ids| - 1], attempts) + attempts[ids[|ids| - 1]]
  }

  /** Every matched OK settled an event or used up one of its attempts. */
  ghost predicate Tried(cfg: Config, s: State) {
    && (forall id :: id in s.attempts <==> id in s.log.produced)
    && (forall id :: id in s.log.produced ==> s.attempts[id] <= cfg.maxEventAttempts)
    && (forall id :: id in s.log.produced ==> (s.attempts[id] == cfg.maxEventAttempts <==> id in s.log.refused))
    && s.log.matched == |s.log.acked| + SumAttempts(s.log.produced, s.attempts)
  }

  /** Every reconnect is paid for, by a failure still on a worker's count or by an OK. */
  ghost predicate Amortised(cfg: Config, s: State) {
    && s.log.progressed <= s.log.matched
    && s.stats.nReconnects <= Sum(CreditOf(cfg.maxConnectAttempts), s.workers) + cfg.maxConnectAttempts * s.log.progressed
  }

  ghost predicate Inv(cfg: Config, s: State) {
    Placed(s) && Capped(cfg, s) && Staffed(cfg, s) && EndsRight(s) && Tried(cfg, s) && Amortised(cfg, s)
  }

  // --- The start ---

  lemma {:induction false} IdleSum(m: Measure, n: nat)
    ensures Sum(m, seq(n, _ => Idle(0))) == 0
  {
    if n > 0 {
      IdleSum(m, n - 1);
      assert seq(n, _ => Idle(0))[..n - 1] == seq(n - 1, _ => Idle(0));
    }
  }

  lemma InitInv(cfg: Config)
    requires cfg.Positive()
    ensures Inv(cfg, Init(cfg))
  {
    IdleSum(DeadOf, cfg.connections);
    IdleSum(CreditOf(cfg.maxConnectAttempts), cfg.connections);
    forall id ensures Places(Init(cfg), id) == 0 {
      IdleSum(HeldOf(id), cfg.connections);
    }
  }

  // --- Moving one worker, and the queue with it ---

  /** A step that moves one worker and events between it and the queue keeps the invariant. */
  lemma ShiftInv(cfg: Config, s: State, todo: seq<Option<Id>>, w: nat, to: Worker)
    requires Inv(cfg, s) && w < |s.workers|
    requires forall id :: InQueue(todo, id) + Value(HeldOf(id), to) == InQueue(s.todo, id) + Value(HeldOf(id), s.workers[w])
    requires Slotted(to, cfg.maxInFlight) && Fit(to, cfg.maxConnectAttempts, s.done)
    requires to.Dead? <==> s.workers[w].Dead?
    requires Value(CreditOf(cfg.maxConnectAttempts), s.workers[w]) <= Value(CreditOf(cfg.maxConnectAttempts), to)
    ensures Inv(cfg, Put(s.(todo := todo), w, to))
  {
    var s' := Put(s.(todo := todo), w, to);
    SumUpdate(DeadOf, s.workers, w, to);
    SumUpdate(CreditOf(cfg.maxConnectAttempts), s.workers, w, to);
    forall id ensures Places(s', id) == Places(s, id) {
      SumUpdate(HeldOf(id), s.workers, w, to);
    }
  }

  /** The steps of a worker other than an OK or the end of a connection. */
  predicate Moves(l: Label) {
    l.Start? || l.Connect? || l.ConnectFails? || l.Acquire? || l.Get? || l.Sent? || l.Drop? || l.Cancel?
  }

  /** A worker moves and takes its pending events along. */
  lemma PlainMove(cfg: Config, s: State, w: nat, to: Worker)
    requires Inv(cfg, s) && w < |s.workers| && !s.workers[w].Dead? && !to.Dead?
    requires (if to.Open? then to.pending else []) == (if s.workers[w].Open? then s.workers[w].pending else [])
    requires Slotted(to, cfg.maxInFlight) && Fit(to, cfg.maxConnectAttempts, s.done)
    requires Value(CreditOf(cfg.maxConnectAttempts), s.workers[w]) <= Value(CreditOf(cfg.maxConnectAttempts), to)
    ensures Inv(cfg, Put(s, w, to))
  {
    ShiftInv(cfg, s, s.todo, w, to);
    assert s.(todo := s.todo) == s;
  }

  lemma MoveStep(cfg: Config, s: State, l: Label)
    requires cfg.Positive() && Inv(cfg, s) && Enabled(cfg, s, l) && Moves(l)
    ensures Inv(cfg, Apply(cfg, s, l))
  {
    var o := s.workers[l.w];
    assert Slotted(o, cfg.maxInFlight) && Fit(o, cfg.maxConnectAttempts, s.done);
    match l
    case Get(w) => GetStep(cfg, s, w);
    case Drop(w) => RequeueStep(cfg, s, w, Closing(o.failures, o.progress));
    case Cancel(w) =>
      if !o.Dead? {
        RequeueStep(cfg, s, w, Exited);
      }
    case Start(w) => PlainMove(cfg, s, w, if s.done then Exited else Connecting(o.failures));
    case Connect(w) => PlainMove(cfg, s, w, Open(o.failures, [], cfg.maxInFlight, Acquiring, false));
    case ConnectFails(w) => PlainMove(cfg, s, w, Closing(o.failures, false));
    case Acquire(w) => PlainMove(cfg, s, w, o.(slots := o.slots - 1, sender := Getting));
    case Sent(w) => PlainMove(cfg, s, w, o.(sender := Acquiring));
  }

  lemma GetStep(cfg: Config, s: State, w: nat)
    requires Inv(cfg, s) && Enabled(cfg, s, Get(w))
    ensures Inv(cfg, Apply(cfg, s, Get(w)))
  {
    var o := s.workers[w];
    assert Slotted(o, cfg.maxInFlight) && Fit(o, cfg.maxConnectAttempts, s.done);
    var to := if s.todo[0].None? then o.(sender := Stopped)
              else o.(pending := o.pending + [s.todo[0].value], sender := Sending);
    forall id
      ensures InQueue(s.todo[1..], id) + Value(HeldOf(id), to) == InQueue(s.todo, id) + Value(HeldOf(id), o)
    {
      QueueHead(s.todo, id);
    }
    ShiftInv(cfg, s, s.todo[1..], w, to);
  }

  /** `_requeue`: a connection's unacked events go back to the queue. */
  lemma RequeueStep(cfg: Config, s: State, w: nat, to: Worker)
    requires cfg.Positive() && Inv(cfg, s) && w < |s.workers| && !s.workers[w].Dead?
    requires (to.Exited? && s.done) || (s.workers[w].Open? && to == Closing(s.workers[w].failures, s.workers[w].progress))
    ensures var back := if s.workers[w].Open? then Items(s.workers[w].pending) else [];
            Inv(cfg, Put(s.(todo := s.todo + back), w, to))
  {
    var o := s.workers[w];
    assert Fit(o, cfg.maxConnectAttempts, s.done);
    var back := if o.Open? then Items(o.pending) else [];
    forall id
      ensures InQueue(s.todo + back, id) + Value(HeldOf(id), to) == InQueue(s.todo, id) + Value(HeldOf(id), o)
    {
      QueueConcat(s.todo, back, id);
      if o.Open? {
        QueueOfItems(o.pending, id);
      }
    }
    ShiftInv(cfg, s, s.todo + back, w, to);
  }

  // --- Producing, retrying, finishing ---

  /** Sentinels are no events: ending the run moves nothing. */
  lemma FinishPlaces(cfg: Config, s: State, id: Id)
    ensures Places(Finish(cfg, s), id) == Places(s, id)
    ensures Places(CheckDone(cfg, s), id) == Places(s, id)
  {
    QueueConcat(s.todo, Sentinels(cfg.connections), id);
    QueueOfSentinels(cfg.connections, id);
  }

  lemma {:induction false} SumAttemptsFrame(ids: seq<Id>, a: map<Id, nat>, b: map<Id, nat>)
    requires forall id :: id in ids ==> id in a && id in b && a[id] == b[id]
    ensures SumAttempts(ids, a) == SumAttempts(ids, b)
  {
    if ids != [] {
      var n := |ids| - 1;
      assert ids[n] in ids;
      SumAttemptsFrame(ids[..n], a, b);
    }
  }

  lemma {:induction false} SumAttemptsBump(ids: seq<Id>, a: map<Id, nat>, id: Id)
    requires Distinct(ids) && id in ids && forall i :: i in ids ==> i in a
    ensures SumAttempts(ids, a[id := a[id] + 1]) == SumAttempts(ids, a) + 1
  {
    var n := |ids| - 1;
    var b := a[id := a[id] + 1];
    assert ids == ids[..n] + [ids[n]];
    if ids[n] == id {
      assert id !in ids[..n];
      SumAttemptsFrame(ids[..n], a, b);
    } else {
      SumAttemptsBump(ids[..n], a, id);
    }
  }

  lemma ProducePlaced(cfg: Config, s: State, id: Id)
    requires Placed(s) && Enabled(cfg, s, Produce(id))
    ensures Placed(Apply(cfg, s, Produce(id)))
    ensures id !in s.log.refused
  {
    var s' := Apply(cfg, s, Produce(id));
    forall x ensures Places(s', x) == Places(s, x) + if x == id then 1 else 0 {
      QueueTail(s.todo, id, x);
    }
    SettledCount(s);
  }

  lemma ProduceTried(cfg: Config, s: State, id: Id)
    requires cfg.Positive() && Tried(cfg, s) && Enabled(cfg, s, Produce(id)) && id !in s.log.refused
    ensures Tried(cfg, Apply(cfg, s, Produce(id)))
  {
    var s' := Apply(cfg, s, Produce(id));
    assert s'.log.produced[..|s.log.produced|] == s.log.produced;
    SumAttemptsFrame(s.log.produced, s.attempts, s'.attempts);
  }

  lemma ProduceStep(cfg: Config, s: State, id: Id)
    requires cfg.Positive() && Inv(cfg, s) && Enabled(cfg, s, Produce(id))
    ensures Inv(cfg, Apply(cfg, s, Produce(id)))
  {
    ProducePlaced(cfg, s, id);
    ProduceTried(cfg, s, id);
  }

  lemma FireStep(cfg: Config, s: State, id: Id)
    requires Inv(cfg, s) && Enabled(cfg, s, Fire(id))
    ensures Inv(cfg, Apply(cfg, s, Fire(id)))
  {
    var s' := Apply(cfg, s, Fire(id));
    forall x ensures Places(s', x) == Places(s, x) {
      QueueTail(s.todo, id, x);
    }
  }

  lemma ProducerEndStep(cfg: Config, s: State, l: Label)
    requires Inv(cfg, s) && Enabled(cfg, s, l) && (l.ProduceEnd? || l.ProduceFails?)
    ensures Inv(cfg, Apply(cfg, s, l))
  {
    var s' := Apply(cfg, s, l);
    forall id ensures Places(s', id) == Places(s, id) {
      FinishPlaces(cfg, s.(producedAll := true), id);
    }
    forall i | 0 <= i < |s.workers| ensures Fit(s'.workers[i], cfg.maxConnectAttempts, s'.done) {
      assert Fit(s.workers[i], cfg.maxConnectAttempts, s.done);
    }
  }

  lemma {:induction false} DistinctCount(ids: seq<Id>, xs: set<Id>)
    requires Distinct(ids) && forall x :: x in xs ==> x in ids
    ensures |xs| <= |ids|
    ensures |xs| == |ids| ==> forall id :: id in ids ==> id in xs
  {
    if ids == [] {
      assert xs == {};
    } else {
      var n := |ids| - 1;
      assert ids == ids[..n] + [ids[n]];
      DistinctCount(ids[..n], xs - {ids[n]});
    }
  }

  /** The settled events are produced ones, settled one way; all are settled exactly when the counts agree. */
  lemma SettledCount(s: State)
    requires Placed(s)
    ensures s.log.acked !! s.log.refused
    ensures forall id :: id in s.log.acked || id in s.log.refused ==> id in s.log.produced
    ensures s.nResolved <= s.stats.nEvents
    ensures s.nResolved == s.stats.nEvents ==> forall id :: id in s.log.produced ==> id in s.log.acked || id in s.log.refused
  {
    forall id
      ensures !(id in s.log.acked && id in s.log.refused)
      ensures id in s.log.acked || id in s.log.refused ==> id in s.log.produced
    {
      HeldNonnegative(id, s.workers);
      assert Places(s, id) == if id in s.log.produced then 1 else 0;
    }
    assert |s.log.acked + s.log.refused| == |s.log.acked| + |s.log.refused|;
    DistinctCount(s.log.produced, s.log.acked + s.log.refused);
  }

  /** A pending event is produced and not settled, so the run is not resolved. */
  lemma PendingIsUnsettled(s: State, w: nat, id: Id)
    requires Placed(s) && w < |s.workers| && s.workers[w].Open? && id in s.workers[w].pending
    ensures id in s.log.produced && id !in s.log.acked && id !in s.log.refused
    ensures s.nResolved < s.stats.nEvents
  {
    HeldNonnegative(id, s.workers);
    assert Value(HeldOf(id), s.workers[w]) >= 1;
    assert Places(s, id) == if id in s.log.produced then 1 else 0;
    SettledCount(s);
  }

  // --- An OK ---

  lemma PoppedPlaces(s: State, w: nat, id: Id, x: Id)
    requires w < |s.workers| && s.workers[w].Open? && id in s.workers[w].pending
    ensures Places(Popped(s, w, id), x) == Places(s, x) - if x == id then 1 else 0
  {
    SumUpdate(HeldOf(x), s.workers, w, Popped(s, w, id).workers[w]);
  }

  lemma PoppedStaffed(cfg: Config, s: State, w: nat, id: Id)
    requires Staffed(cfg, s) && w < |s.workers| && s.workers[w].Open? && id in s.workers[w].pending
    ensures Staffed(cfg, Popped(s, w, id))
  {
    SumUpdate(DeadOf, s.workers, w, Popped(s, w, id).workers[w]);
    assert Fit(s.workers[w], cfg.maxConnectAttempts, s.done);
  }

  lemma PoppedAmortised(cfg: Config, s: State, w: nat, id: Id)
    requires Amortised(cfg, s) && w < |s.workers| && s.workers[w].Open? && id in s.workers[w].pending
    ensures Amortised(cfg, Popped(s, w, id))
  {
    SumUpdate(CreditOf(cfg.maxConnectAttempts), s.workers, w, Popped(s, w, id).workers[w]);
    assert cfg.maxConnectAttempts * (s.log.progressed + 1) == cfg.maxConnectAttempts * s.log.progressed + cfg.maxConnectAttempts;
  }

  lemma PoppedCapped(cfg: Config, s: State, w: nat, id: Id)
    requires Capped(cfg, s) && w < |s.workers| && s.workers[w].Open? && id in s.workers[w].pending
    ensures Capped(cfg, Popped(s, w, id))
  {
    assert Slotted(s.workers[w], cfg.maxInFlight);
  }

  lemma PoppedKeeps(cfg: Config, s: State, w: nat, id: Id)
    requires Inv(cfg, s) && w < |s.workers| && s.workers[w].Open? && id in s.workers[w].pending
    ensures var p := Popped(s, w, id);
            && (forall x :: Places(p, x) == Places(s, x) - if x == id then 1 else 0)
            && Capped(cfg, p) && Staffed(cfg, p) && Amortised(cfg, p)
  {
    forall x ensures Places(Popped(s, w, id), x) == Places(s, x) - if x == id then 1 else 0 {
      PoppedPlaces(s, w, id, x);
    }
    PoppedCapped(cfg, s, w, id);
    PoppedStaffed(cfg, s, w, id);
    PoppedAmortised(cfg, s, w, id);
  }

  /** An event that left its connection is settled, one way, and nothing else moves. */
  lemma SettledPlaced(s: State, p: State, s': State, id: Id)
    requires Placed(s) && id in s.log.produced && id !in s.log.acked && id !in s.log.refused
    requires forall y :: Places(p, y) == Places(s, y) - if y == id then 1 else 0
    requires p.log.acked == s.log.acked && p.log.refused == s.log.refused
    requires s'.workers == p.workers && s'.retries == p.retries && s'.log.produced == s.log.produced
    requires forall y :: InQueue(s'.todo, y) == InQueue(p.todo, y)
    requires s'.stats.nEvents == s.stats.nEvents && s'.nResolved == s.nResolved + 1
    requires || (s'.log.acked == s.log.acked + {id} && s'.log.refused == s.log.refused && s'.stats.nAcked == s.stats.nAcked + 1)
             || (s'.log.acked == s.log.acked && s'.log.refused == s.log.refused + {id} && s'.stats.nAcked == s.stats.nAcked)
    ensures Placed(s')
  {
    forall y ensures Places(s', y) == Places(s, y) {
      SettledPlaceOf(p, s', id, y);
    }
  }

  lemma SettledPlaceOf(p: State, s': State, id: Id, y: Id)
    requires s'.workers == p.workers && s'.retries == p.retries && InQueue(s'.todo, y) == InQueue(p.todo, y)
    requires id !in p.log.acked && id !in p.log.refused
    requires || (s'.log.acked == p.log.acked + {id} && s'.log.refused == p.log.refused)
             || (s'.log.acked == p.log.acked && s'.log.refused == p.log.refused + {id})
    ensures Places(s', y) == Places(p, y) + if y == id then 1 else 0
  {
  }

  lemma ResolveQueue(cfg: Config, x: State, id: Id)
    ensures InQueue(Resolve(cfg, x).todo, id) == InQueue(x.todo, id)
  {
    QueueConcat(x.todo, Sentinels(cfg.connections), id);
    QueueOfSentinels(cfg.connections, id);
  }

  /** The last of an event: it is settled, and its permit returns. */
  lemma SettledKeeps(cfg: Config, s: State, p: State, x: State, id: Id)
    requires EndsRight(s) && s.nResolved < s.stats.nEvents
    requires p.nResolved == s.nResolved && p.stats == s.stats && p.done == s.done
    requires p.producerFailed == s.producerFailed && p.producedAll == s.producedAll
    requires Capped(cfg, p) && Staffed(cfg, p) && Amortised(cfg, p)
    requires x == Accept(p, id) || x == Refuse(p.(attempts := x.attempts), id)
    ensures var s' := Resolve(cfg, x);
            && Capped(cfg, s') && Staffed(cfg, s') && EndsRight(s') && Amortised(cfg, s')
            && forall y :: InQueue(s'.todo, y) == InQueue(p.todo, y)
  {
    CheckDoneKeeps(cfg, x.(nResolved := x.nResolved + 1, permits := x.permits + 1));
    forall y ensures InQueue(Resolve(cfg, x).todo, y) == InQueue(p.todo, y) {
      ResolveQueue(cfg, x, y);
    }
  }

  lemma TriedFrame(cfg: Config, a: State, b: State)
    requires Tried(cfg, a) && b.attempts == a.attempts && b.log.produced == a.log.produced && b.log.refused == a.log.refused
    requires b.log.matched + |a.log.acked| == a.log.matched + |b.log.acked|
    ensures Tried(cfg, b)
  {
  }

  lemma AcceptedStep(cfg: Config, s: State, w: nat, id: Id)
    requires cfg.Positive() && Inv(cfg, s) && w < |s.workers| && s.workers[w].Open? && id in s.workers[w].pending
    ensures Inv(cfg, OnOk(cfg, s, w, id, true))
  {
    PoppedKeeps(cfg, s, w, id);
    PendingIsUnsettled(s, w, id);
    var p := Popped(s, w, id);
    SettledKeeps(cfg, s, p, Accept(p, id), id);
    SettledPlaced(s, p, Resolve(cfg, Accept(p, id)), id);
    TriedFrame(cfg, s, Resolve(cfg, Accept(p, id)));
  }

  /** One more attempt, and the event counts as refused exactly when that was the last. */
  lemma BumpedTried(cfg: Config, s: State, b: State, id: Id)
    requires Tried(cfg, s) && Distinct(s.log.produced) && id in s.log.produced && id !in s.log.refused
    requires b.log.produced == s.log.produced && b.log.acked == s.log.acked && b.log.matched == s.log.matched + 1
    requires b.attempts == s.attempts[id := s.attempts[id] + 1]
    requires b.log.refused == if s.attempts[id] + 1 >= cfg.maxEventAttempts then s.log.refused + {id} else s.log.refused
    ensures Tried(cfg, b)
  {
    SumAttemptsBump(s.log.produced, s.attempts, id);
  }

  lemma BumpTried(cfg: Config, s: State, p: State, id: Id)
    requires Tried(cfg, s) && Distinct(s.log.produced) && id in s.log.produced && id !in s.log.refused
    requires p.attempts == s.attempts && p.log.produced == s.log.produced && p.log.refused == s.log.refused && p.log.acked == s.log.acked
    requires p.log.matched == s.log.matched + 1
    ensures var t := Try(p, id);
            && (t.attempts[id] >= cfg.maxEventAttempts ==> Tried(cfg, Resolve(cfg, Refuse(t, id))))
            && (t.attempts[id] < cfg.maxEventAttempts ==> Tried(cfg, Retry(t, id)))
  {
    var t := Try(p, id);
    if t.attempts[id] >= cfg.maxEventAttempts {
      BumpedTried(cfg, s, Resolve(cfg, Refuse(t, id)), id);
    } else {
      BumpedTried(cfg, s, Retry(t, id), id);
    }
  }

  /** An event refused for the last time is settled. */
  lemma GivenUpStep(cfg: Config, s: State, w: nat, id: Id)
    requires cfg.Positive() && Inv(cfg, s) && w < |s.workers| && s.workers[w].Open? && id in s.workers[w].pending
    requires Try(Popped(s, w, id), id).attempts[id] >= cfg.maxEventAttempts
    ensures Inv(cfg, Resolve(cfg, Refuse(Try(Popped(s, w, id), id), id)))
  {
    PoppedKeeps(cfg, s, w, id);
    PendingIsUnsettled(s, w, id);
    var p := Popped(s, w, id);
    var t := Try(p, id);
    BumpTried(cfg, s, p, id);
    SettledKeeps(cfg, s, p, Refuse(t, id), id);
    SettledPlaced(s, p, Resolve(cfg, Refuse(t, id)), id);
  }

  /** Else it waits for its retry. */
  lemma RetriedStep(cfg: Config, s: State, w: nat, id: Id)
    requires cfg.Positive() && Inv(cfg, s) && w < |s.workers| && s.workers[w].Open? && id in s.workers[w].pending
    requires Try(Popped(s, w, id), id).attempts[id] < cfg.maxEventAttempts
    ensures Inv(cfg, Retry(Try(Popped(s, w, id), id), id))
  {
    PoppedKeeps(cfg, s, w, id);
    PendingIsUnsettled(s, w, id);
    var p := Popped(s, w, id);
    BumpTried(cfg, s, p, id);
    RetryPlaced(s, p, Retry(Try(p, id), id), id);
  }

  lemma RefusedStep(cfg: Config, s: State, w: nat, id: Id)
    requires cfg.Positive() && Inv(cfg, s) && w < |s.workers| && s.workers[w].Open? && id in s.workers[w].pending
    ensures Inv(cfg, OnOk(cfg, s, w, id, false))
  {
    if Try(Popped(s, w, id), id).attempts[id] >= cfg.maxEventAttempts {
      GivenUpStep(cfg, s, w, id);
    } else {
      RetriedStep(cfg, s, w, id);
    }
  }

  lemma RetryPlaced(s: State, p: State, s': State, id: Id)
    requires Placed(s) && forall x :: Places(p, x) == Places(s, x) - if x == id then 1 else 0
    requires s'.todo == p.todo && s'.workers == p.workers && s'.retries == p.retries + multiset{id}
    requires s'.log.acked == p.log.acked == s.log.acked && s'.log.refused == p.log.refused == s.log.refused && s'.log.produced == s.log.produced
    requires s'.stats.nEvents == s.stats.nEvents && s'.stats.nAcked == s.stats.nAcked && s'.nResolved == s.nResolved
    ensures Placed(s')
  {
    forall x ensures Places(s', x) == Places(s, x) {
      assert Places(s', x) == Places(p, x) + if x == id then 1 else 0;
    }
  }

  lemma CheckDoneKeeps(cfg: Config, t: State)
    requires Capped(cfg, t) && Staffed(cfg, t) && Amortised(cfg, t)
    requires t.done ==> t.stats.aborted || t.producerFailed || (t.producedAll && t.nResolved == t.stats.nEvents)
    requires t.stats.aborted || t.producerFailed ==> t.done
    ensures Capped(cfg, CheckDone(cfg, t)) && Staffed(cfg, CheckDone(cfg, t)) && Amortised(cfg, CheckDone(cfg, t))
    ensures EndsRight(CheckDone(cfg, t))
  {
    var s' := CheckDone(cfg, t);
    forall i | 0 <= i < |t.workers| ensures Fit(s'.workers[i], cfg.maxConnectAttempts, s'.done) {
      assert Fit(t.workers[i], cfg.maxConnectAttempts, t.done);
    }
  }

  // --- The end of a connection ---

  lemma ClosedStep(cfg: Config, s: State, w: nat)
    requires cfg.Positive() && Inv(cfg, s) && w < |s.workers| && s.workers[w].Closing?
    ensures Inv(cfg, AfterClose(cfg, s, w))
  {
    var o := s.workers[w];
    assert Fit(o, cfg.maxConnectAttempts, s.done);
    var failures := if o.progress then 0 else o.failures + 1;
    if s.done {
      ShiftInv(cfg, s, s.todo, w, Exited);
      assert s.(todo := s.todo) == s;
    } else if failures >= cfg.maxConnectAttempts {
      GiveUp(cfg, s, w);
    } else {
      Reconnect(cfg, s, w, failures);
    }
  }

  lemma Reconnect(cfg: Config, s: State, w: nat, failures: nat)
    requires cfg.Positive() && Inv(cfg, s) && w < |s.workers| && s.workers[w].Closing?
    requires failures == if s.workers[w].progress then 0 else s.workers[w].failures + 1
    requires failures < cfg.maxConnectAttempts && !s.done
    ensures Inv(cfg, Put(s, w, Idle(failures)).(stats := s.stats.(nReconnects := s.stats.nReconnects + 1)))
  {
    var o, to := s.workers[w], Idle(failures);
    var s' := Put(s, w, to).(stats := s.stats.(nReconnects := s.stats.nReconnects + 1));
    assert Fit(o, cfg.maxConnectAttempts, s.done);
    SumUpdate(DeadOf, s.workers, w, to);
    SumUpdate(CreditOf(cfg.maxConnectAttempts), s.workers, w, to);
    forall id ensures Places(s', id) == Places(s, id) {
      SumUpdate(HeldOf(id), s.workers, w, to);
    }
  }

  lemma PutPlaces(s: State, w: nat, to: Worker, id: Id)
    requires w < |s.workers| && !to.Open? && !s.workers[w].Open?
    ensures Places(Put(s, w, to), id) == Places(s, id)
  {
    SumUpdate(HeldOf(id), s.workers, w, to);
  }

  lemma GiveUpPlaced(cfg: Config, s: State, w: nat)
    requires Placed(s) && w < |s.workers| && s.workers[w].Closing? && !s.done
    requires (if s.workers[w].progress then 0 else s.workers[w].failures + 1) >= cfg.maxConnectAttempts
    ensures Placed(AfterClose(cfg, s, w))
  {
    var put := Put(s, w, Dead);
    var dead := put.(deadWorkers := s.deadWorkers + 1);
    var s' := AfterClose(cfg, s, w);
    assert s' == dead || s' == Finish(cfg, Abort(dead));
    forall id ensures Places(s', id) == Places(s, id) {
      PutPlaces(s, w, Dead, id);
      assert Places(dead, id) == Places(put, id) && Places(Abort(dead), id) == Places(put, id);
      FinishPlaces(cfg, Abort(dead), id);
    }
  }

  lemma GiveUp(cfg: Config, s: State, w: nat)
    requires cfg.Positive() && Inv(cfg, s) && w < |s.workers| && s.workers[w].Closing? && !s.done
    requires (if s.workers[w].progress then 0 else s.workers[w].failures + 1) >= cfg.maxConnectAttempts
    ensures Inv(cfg, AfterClose(cfg, s, w))
  {
    GiveUpPlaced(cfg, s, w);
    var s' := AfterClose(cfg, s, w);
    assert Fit(s.workers[w], cfg.maxConnectAttempts, s.done);
    SumUpdate(DeadOf, s.workers, w, Dead);
    SumUpdate(CreditOf(cfg.maxConnectAttempts), s.workers, w, Dead);
    assert Staffed(cfg, s') by {
      AllDead(s.workers);
      forall i | 0 <= i < |s.workers| ensures Fit(s'.workers[i], cfg.maxConnectAttempts, s'.done) {
        assert Fit(s.workers[i], cfg.maxConnectAttempts, s.done);
      }
    }
    assert Capped(cfg, s') && Tried(cfg, s') && Amortised(cfg, s') && EndsRight(s');
  }

  // --- Every run ---

  lemma InvStep(cfg: Config, s: State, l: Label)
    requires cfg.Positive() && Inv(cfg, s) && Enabled(cfg, s, l)
    ensures Inv(cfg, Apply(cfg, s, l))
  {
    if Moves(l) {
      MoveStep(cfg, s, l);
    } else {
      match l
      case Produce(id) => ProduceStep(cfg, s, id);
      case Fire(id) => FireStep(cfg, s, id);
      case Ok(w, id, accepted) =>
        if id in s.workers[w].pending {
          if accepted {
            AcceptedStep(cfg, s, w, id);
          } else {
            RefusedStep(cfg, s, w, id);
          }
        }
      case Closed(w) => ClosedStep(cfg, s, w);
      case _ => ProducerEndStep(cfg, s, l);
    }
  }

  /** The invariant holds in every state any run of steps reaches. */
  lemma {:induction false} RunInv(cfg: Config, ls: seq<Label>)
    requires cfg.Positive() && Run(cfg, ls).Some?
    ensures Inv(cfg, Run(cfg, ls).value)
  {
    if ls == [] {
      InitInv(cfg);
    } else {
      var n := |ls| - 1;
      RunInv(cfg, ls[..n]);
      InvStep(cfg, Run(cfg, ls[..n]).value, ls[n]);
    }
  }

  // --- What that means ---

  /** In every reachable state a produced event is in exactly one place, and pending on at most one
      connection; nothing else is anywhere. */
  lemma EventInOnePlace(cfg: Config, ls: seq<Label>, id: Id)
    requires cfg.Positive() && Run(cfg, ls).Some?
    ensures var s := Run(cfg, ls).value;
            && Places(s, id) == (if id in s.log.produced then 1 else 0)
            && (forall i, j :: 0 <= i < j < |s.workers| && s.workers[i].Open? && s.workers[j].Open? ==>
                  !(id in s.workers[i].pending && id in s.workers[j].pending))
  {
    RunInv(cfg, ls);
    var s := Run(cfg, ls).value;
    forall i, j | 0 <= i < j < |s.workers| && s.workers[i].Open? && s.workers[j].Open?
      ensures !(id in s.workers[i].pending && id in s.workers[j].pending)
    {
      HeldPair(id, s.workers, i, j);
      assert Places(s, id) <= 1;
    }
  }

  /** Neither semaphore is ever overdrawn: events held at once, and events in flight per connection. */
  lemma NeverOverCap(cfg: Config, ls: seq<Label>)
    requires cfg.Positive() && Run(cfg, ls).Some?
    ensures var s := Run(cfg, ls).value;
            && s.nResolved <= s.stats.nEvents <= s.nResolved + cfg.maxOutstanding
            && forall i :: 0 <= i < |s.workers| && s.workers[i].Open? ==> |s.workers[i].pending| <= cfg.maxInFlight
  {
    RunInv(cfg, ls);
    var s := Run(cfg, ls).value;
    SettledCount(s);
    assert forall i :: 0 <= i < |s.workers| ==> Slotted(s.workers[i], cfg.maxInFlight);
  }

  /** Delivery is complete exactly when the run is not aborted and nothing is unacked: then every event
      produced got a true OK, one each, none was refused and none is left anywhere. */
  lemma CleanFinishDelivers(cfg: Config, ls: seq<Label>)
    requires cfg.Positive() && Run(cfg, ls).Some?
    requires var s := Run(cfg, ls).value; s.done && !s.producerFailed
    ensures var s := Run(cfg, ls).value;
            (!s.stats.aborted && s.stats.nEvents - s.stats.nAcked == 0) <==>
            (!s.stats.aborted && s.producedAll && s.log.refused == {} && forall id :: id in s.log.produced <==> id in s.log.acked)
    ensures var s := Run(cfg, ls).value;
            !s.stats.aborted ==> forall id :: InQueue(s.todo, id) + Sum(HeldOf(id), s.workers) + s.retries[id] == 0
  {
    RunInv(cfg, ls);
    var s := Run(cfg, ls).value;
    SettledCount(s);
    if !s.stats.aborted {
      forall id ensures InQueue(s.todo, id) + Sum(HeldOf(id), s.workers) + s.retries[id] == 0 {
        HeldNonnegative(id, s.workers);
        assert Places(s, id) == if id in s.log.produced then 1 else 0;
      }
      if s.log.refused == {} {
        assert s.nResolved == |s.log.acked|;
      }
    }
  }

  /** What a worker does next when nothing goes wrong. */
  predicate Advances(l: Label) {
    l.Start? || l.Connect? || l.Ok? || l.Closed?
  }

  /** In a state that is not over some worker can go on and, once all events are produced, one of them is
      still to settle. */
  lemma NotOver(cfg: Config, s: State)
    requires cfg.Positive() && Inv(cfg, s) && !s.done
    ensures exists l :: Advances(l) && Enabled(cfg, s, l)
    ensures s.producedAll ==> exists id :: id in s.log.produced && id !in s.log.acked && id !in s.log.refused
  {
    AllDead(s.workers);
    var i :| 0 <= i < |s.workers| && !s.workers[i].Dead?;
    assert Fit(s.workers[i], cfg.maxConnectAttempts, s.done);
    match s.workers[i] {
      case Idle(_) => assert Enabled(cfg, s, Start(i));
      case Connecting(_) => assert Enabled(cfg, s, Connect(i));
      case Open(_, _, _, _, _) => assert Enabled(cfg, s, Ok(i, "", true));
      case Closing(_, _) => assert Enabled(cfg, s, Closed(i));
      case _ =>
    }
    SettledCount(s);
    assert |s.log.acked + s.log.refused| == |s.log.acked| + |s.log.refused|;
    if s.producedAll && forall id :: id in s.log.produced ==> id in s.log.acked || id in s.log.refused {
      AllSettled(s.log.produced, s.log.acked + s.log.refused);
    }
  }

  /** So over every run. */
  lemma NotOverCanMove(cfg: Config, ls: seq<Label>)
    requires cfg.Positive() && Run(cfg, ls).Some? && !Run(cfg, ls).value.done
    ensures var s := Run(cfg, ls).value;
            && (exists l :: Advances(l) && Enabled(cfg, s, l))
            && (s.producedAll ==> exists id :: id in s.log.produced && id !in s.log.acked && id !in s.log.refused)
  {
    RunInv(cfg, ls);
    NotOver(cfg, Run(cfg, ls).value);
  }

  lemma {:induction false} AllSettled(ids: seq<Id>, xs: set<Id>)
    requires Distinct(ids) && forall id :: id in ids ==> id in xs
    ensures |ids| <= |xs|
  {
    if ids != [] {
      var n := |ids| - 1;
      assert ids == ids[..n] + [ids[n]];
      AllSettled(ids[..n], xs - {ids[n]});
    }
  }

  lemma {:induction false} AttemptsBound(ids: seq<Id>, attempts: map<Id, nat>, acked: set<Id>, max: nat)
    requires Distinct(ids) && forall id :: id in ids ==> id in attempts
    requires forall id :: id in acked ==> id in ids
    requires forall id :: id in ids ==> attempts[id] + (if id in acked then 1 else 0) <= max
    ensures |acked| + SumAttempts(ids, attempts) <= max * |ids|
  {
    if ids == [] {
      assert acked == {};
    } else {
      var n := |ids| - 1;
      var x, front := ids[n], ids[..n];
      assert ids == front + [x];
      assert |acked| == |acked - {x}| + if x in acked then 1 else 0;
      AttemptsBound(front, attempts, acked - {x}, max);
      StepBound(|acked - {x}| + SumAttempts(front, attempts), attempts[x] + (if x in acked then 1 else 0), max, n);
    }
  }

  lemma StepBound(a: nat, b: nat, max: nat, n: nat)
    requires a <= max * n && b <= max
    ensures a + b <= max * (n + 1)
  {
  }

  /** Whatever the relay does, the OKs that match an event number at most `max_event_attempts` per event. */
  lemma MatchedBound(cfg: Config, ls: seq<Label>)
    requires cfg.Positive() && Run(cfg, ls).Some?
    ensures Run(cfg, ls).value.log.matched <= cfg.maxEventAttempts * Run(cfg, ls).value.stats.nEvents
  {
    RunInv(cfg, ls);
    var s := Run(cfg, ls).value;
    SettledCount(s);
    AttemptsBound(s.log.produced, s.attempts, s.log.acked, cfg.maxEventAttempts);
  }

  lemma CreditBound(cfg: Config, ws: seq<Worker>, done: bool)
    requires cfg.Positive() && forall i :: 0 <= i < |ws| ==> Fit(ws[i], cfg.maxConnectAttempts, done)
    ensures Sum(CreditOf(cfg.maxConnectAttempts), ws) <= |ws| * (cfg.maxConnectAttempts - 1)
  {
    var max := cfg.maxConnectAttempts;
    forall w | w in ws ensures -max <= Value(CreditOf(max), w) <= max - 1 {
      var i :| 0 <= i < |ws| && ws[i] == w;
      assert Fit(ws[i], max, done);
    }
    SumBounds(CreditOf(max), ws, -max, max - 1);
  }

  /** Whatever the relay does, reconnects are bounded: each connection's own patience, and one round of it
      per OK that matched. */
  lemma ReconnectBound(cfg: Config, ls: seq<Label>)
    requires cfg.Positive() && Run(cfg, ls).Some?
    ensures Run(cfg, ls).value.stats.nReconnects <=
              cfg.connections * (cfg.maxConnectAttempts - 1)
              + cfg.maxConnectAttempts * (cfg.maxEventAttempts * Run(cfg, ls).value.stats.nEvents)
  {
    RunInv(cfg, ls);
    MatchedBound(cfg, ls);
    var s := Run(cfg, ls).value;
    CreditBound(cfg, s.workers, s.done);
    TimesMonotone(cfg.maxConnectAttempts, s.log.progressed, cfg.maxEventAttempts * s.stats.nEvents);
  }

  lemma TimesMonotone(k: nat, a: nat, b: nat)
    requires a <= b
    ensures k * a <= k * b
  {
  }
}
