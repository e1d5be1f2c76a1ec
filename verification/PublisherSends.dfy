/** How often the publisher sends: every send takes an event off the queue, and only producing, a retry or the end
    of a connection puts one there. */
module PublisherSends {
  import opened Text
  import opened RelayPublisher
  import opened PublisherSafety

  /** Counted along a run: sends, retries queued again, events a connection gave back, and connections ended. */
  datatype Tally = Tally(sends: nat, fires: nat, requeued: nat, ends: nat)

  function Note(cfg: Config, s: State, l: Label, t: Tally): Tally
    requires Enabled(cfg, s, l)
  {
    match l
    case Get(w) => if s.todo[0].Some? then t.(sends := t.sends + 1) else t
    case Fire(_) => t.(fires := t.fires + 1)
    case Drop(w) => t.(requeued := t.requeued + |s.workers[w].pending|, ends := t.ends + 1)
    case Cancel(w) =>
      if s.workers[w].Open? then t.(requeued := t.requeued + |s.workers[w].pending|, ends := t.ends + 1) else t
    case _ => t
  }

  function TallyOf(cfg: Config, ls: seq<Label>): Tally
    requires Run(cfg, ls).Some?
  {
    if ls == [] then Tally(0, 0, 0, 0)
    else
      var n := |ls| - 1;
      Note(cfg, Run(cfg, ls[..n]).value, ls[n], TallyOf(cfg, ls[..n]))
  }

  // --- Events in the queue ---

  function Queued(todo: seq<Option<Id>>): nat {
    if todo == [] then 0 else Queued(todo[..|todo| - 1]) + if todo[|todo| - 1].Some? then 1 else 0
  }

  lemma {:induction false} QueuedConcat(a: seq<Option<Id>>, b: seq<Option<Id>>)
    ensures Queued(a + b) == Queued(a) + Queued(b)
  {
    if b == [] {
      assert a + b == a;
    } else {
      QueuedConcat(a, b[..|b| - 1]);
      assert (a + b)[..|a + b| - 1] == a + b[..|b| - 1];
    }
  }

  lemma {:induction false} QueuedItems(ids: seq<Id>)
    ensures Queued(Items(ids)) == |ids|
  {
    if ids != [] {
      QueuedItems(ids[..|ids| - 1]);
      assert Items(ids)[..|ids| - 1] == Items(ids[..|ids| - 1]);
    }
  }

  lemma {:induction false} QueuedSentinels(n: nat)
    ensures Queued(Sentinels(n)) == 0
  {
    if n > 0 {
      QueuedSentinels(n - 1);
      assert Sentinels(n)[..n - 1] == Sentinels(n - 1);
    }
  }

  lemma QueuedOne(todo: seq<Option<Id>>, x: Option<Id>)
    ensures Queued(todo + [x]) == Queued(todo) + if x.Some? then 1 else 0
  {
    assert (todo + [x])[..|todo|] == todo;
  }

  lemma QueuedHead(todo: seq<Option<Id>>)
    requires todo != []
    ensures Queued(todo) == Queued(todo[1..]) + if todo[0].Some? then 1 else 0
  {
    assert todo == [todo[0]] + todo[1..];
    QueuedConcat([todo[0]], todo[1..]);
    assert [todo[0]][..0] == [];
  }

  lemma FinishQueued(cfg: Config, s: State)
    ensures Queued(Finish(cfg, s).todo) == Queued(s.todo)
  {
    QueuedSentinels(cfg.connections);
    QueuedConcat(s.todo, Sentinels(cfg.connections));
  }

  // --- What the counts keep ---

  /** What was sent or is queued was produced, retried or given back. */
  ghost predicate Conserved(s: State, t: Tally) {
    && t.sends + Queued(s.todo) == s.stats.nEvents + t.fires + t.requeued
    && t.fires + |s.retries| == s.stats.nRetried
    && s.stats.nRetried <= s.log.matched
  }

  /** A connection gives back no more than it may hold, and ends once for each reconnect or for good. */
  ghost predicate Bounded(cfg: Config, s: State, t: Tally) {
    && t.requeued <= t.ends * cfg.maxInFlight
    && t.ends <= s.stats.nReconnects + Sum(EndedOf, s.workers)
  }

  ghost predicate Even(cfg: Config, s: State, t: Tally) {
    Conserved(s, t) && Bounded(cfg, s, t)
  }

  /** A step that moves one worker from no better a state, and nothing else counted. */
  lemma PutEven(cfg: Config, s: State, t: Tally, w: nat, to: Worker)
    requires Even(cfg, s, t) && w < |s.workers| && Value(EndedOf, s.workers[w]) <= Value(EndedOf, to)
    ensures Even(cfg, Put(s, w, to), t)
  {
    SumUpdate(EndedOf, s.workers, w, to);
  }

  lemma FinishEven(cfg: Config, s: State, t: Tally)
    requires Even(cfg, s, t)
    ensures Even(cfg, Finish(cfg, s), t)
  {
    FinishQueued(cfg, s);
  }

  lemma ResolveEven(cfg: Config, s: State, t: Tally)
    requires Even(cfg, s, t)
    ensures Even(cfg, Resolve(cfg, s), t)
  {
    var x := s.(nResolved := s.nResolved + 1, permits := s.permits + 1);
    assert Even(cfg, x, t);
    FinishEven(cfg, x, t);
  }

  lemma OkEven(cfg: Config, s: State, t: Tally, w: nat, id: Id, accepted: bool)
    requires Even(cfg, s, t) && w < |s.workers| && s.workers[w].Open? && id in s.workers[w].pending
    ensures Even(cfg, OnOk(cfg, s, w, id, accepted), t)
  {
    var p := Popped(s, w, id);
    SumUpdate(EndedOf, s.workers, w, p.workers[w]);
    assert Even(cfg, p, t) && p.stats.nRetried < p.log.matched;
    if accepted {
      assert Even(cfg, Accept(p, id), t);
      ResolveEven(cfg, Accept(p, id), t);
    } else {
      var tried := Try(p, id);
      assert Even(cfg, tried, t);
      if tried.attempts[id] >= cfg.maxEventAttempts {
        assert Even(cfg, Refuse(tried, id), t);
        ResolveEven(cfg, Refuse(tried, id), t);
      }
    }
  }

  lemma ClosedEven(cfg: Config, s: State, t: Tally, w: nat)
    requires Even(cfg, s, t) && w < |s.workers| && s.workers[w].Closing?
    ensures Even(cfg, AfterClose(cfg, s, w), t)
  {
    if s.done {
      PutEven(cfg, s, t, w, Exited);
    } else {
      var failures := if s.workers[w].progress then 0 else s.workers[w].failures + 1;
      if failures >= cfg.maxConnectAttempts {
        PutEven(cfg, s, t, w, Dead);
        var dead := Put(s, w, Dead).(deadWorkers := s.deadWorkers + 1);
        assert Even(cfg, Abort(dead), t);
        FinishEven(cfg, Abort(dead), t);
      } else {
        SumUpdate(EndedOf, s.workers, w, Idle(failures));
      }
    }
  }

  /** A connection ends and gives back what it held. */
  lemma EndEven(cfg: Config, s: State, t: Tally, w: nat, to: Worker)
    requires Even(cfg, s, t) && w < |s.workers| && s.workers[w].Open? && Slotted(s.workers[w], cfg.maxInFlight)
    requires to.Closing? || to.Exited?
    ensures var n := |s.workers[w].pending|;
            Even(cfg, Put(s.(todo := s.todo + Items(s.workers[w].pending)), w, to), t.(requeued := t.requeued + n, ends := t.ends + 1))
  {
    var ids := s.workers[w].pending;
    QueuedConcat(s.todo, Items(ids));
    QueuedItems(ids);
    SumUpdate(EndedOf, s.workers, w, to);
    OneEndMore(t.requeued, |ids|, t.ends, cfg.maxInFlight);
  }

  lemma OneEndMore(requeued: nat, n: nat, ends: nat, max: nat)
    requires requeued <= ends * max && n <= max
    ensures requeued + n <= (ends + 1) * max
  {
  }

  lemma GetEven(cfg: Config, s: State, t: Tally, w: nat)
    requires Even(cfg, s, t) && Enabled(cfg, s, Get(w))
    ensures Even(cfg, Apply(cfg, s, Get(w)), Note(cfg, s, Get(w), t))
  {
    QueuedHead(s.todo);
    SumUpdate(EndedOf, s.workers, w, Apply(cfg, s, Get(w)).workers[w]);
  }

  lemma CancelEven(cfg: Config, s: State, t: Tally, w: nat)
    requires Even(cfg, s, t) && Enabled(cfg, s, Cancel(w)) && Slotted(s.workers[w], cfg.maxInFlight)
    ensures Even(cfg, Apply(cfg, s, Cancel(w)), Note(cfg, s, Cancel(w), t))
  {
    if s.workers[w].Open? {
      EndEven(cfg, s, t, w, Exited);
    } else if !s.workers[w].Dead? {
      PutEven(cfg, s, t, w, Exited);
      assert s.(todo := s.todo + []) == s;
    }
  }

  lemma MoveEven(cfg: Config, s: State, t: Tally, l: Label)
    requires Even(cfg, s, t) && Enabled(cfg, s, l) && Moves(l)
    requires forall i :: 0 <= i < |s.workers| ==> Slotted(s.workers[i], cfg.maxInFlight)
    ensures Even(cfg, Apply(cfg, s, l), Note(cfg, s, l, t))
  {
    match l
    case Get(w) => GetEven(cfg, s, t, w);
    case Drop(w) => EndEven(cfg, s, t, w, Closing(s.workers[w].failures, s.workers[w].progress));
    case Cancel(w) => CancelEven(cfg, s, t, w);
    case Start(w) => PutEven(cfg, s, t, w, Apply(cfg, s, l).workers[w]);
    case Connect(w) => PutEven(cfg, s, t, w, Apply(cfg, s, l).workers[w]);
    case ConnectFails(w) => PutEven(cfg, s, t, w, Apply(cfg, s, l).workers[w]);
    case Acquire(w) => PutEven(cfg, s, t, w, Apply(cfg, s, l).workers[w]);
    case Sent(w) => PutEven(cfg, s, t, w, Apply(cfg, s, l).workers[w]);
  }

  lemma StepEven(cfg: Config, s: State, t: Tally, l: Label)
    requires Inv(cfg, s) && Even(cfg, s, t) && Enabled(cfg, s, l)
    ensures Even(cfg, Apply(cfg, s, l), Note(cfg, s, l, t))
  {
    if Moves(l) {
      MoveEven(cfg, s, t, l);
    } else {
      match l
      case Produce(id) => QueuedOne(s.todo, Some(id));
      case ProduceEnd => FinishEven(cfg, s.(producedAll := true), t);
      case Fire(id) => QueuedOne(s.todo, Some(id));
      case Ok(w, id, accepted) =>
        if id in s.workers[w].pending {
          OkEven(cfg, s, t, w, id, accepted);
        }
      case Closed(w) => ClosedEven(cfg, s, t, w);
      case _ =>
    }
  }

  lemma {:induction false} RunEven(cfg: Config, ls: seq<Label>)
    requires cfg.Positive() && Run(cfg, ls).Some?
    ensures Even(cfg, Run(cfg, ls).value, TallyOf(cfg, ls))
  {
    if ls == [] {
      IdleSum(EndedOf, cfg.connections);
    } else {
      var n := |ls| - 1;
      RunEven(cfg, ls[..n]);
      RunInv(cfg, ls[..n]);
      StepEven(cfg, Run(cfg, ls[..n]).value, TallyOf(cfg, ls[..n]), ls[n]);
    }
  }

  // --- The bound ---

  lemma EndedBound(ws: seq<Worker>)
    ensures 0 <= Sum(EndedOf, ws) <= |ws|
  {
    SumBounds(EndedOf, ws, 0, 1);
  }

  /** Whatever the relay does, sends are bounded: one per event and per retry, and what each connection had in
      flight when it ended, once per reconnect and once for good. */
  lemma SendBound(cfg: Config, ls: seq<Label>)
    requires cfg.Positive() && Run(cfg, ls).Some?
    ensures SendsWithin(cfg, Run(cfg, ls).value, TallyOf(cfg, ls).sends)
  {
    RunEven(cfg, ls);
    Staff(cfg, ls);
    RetryBound(cfg, ls);
    EvenBound(cfg, Run(cfg, ls).value, TallyOf(cfg, ls));
  }

  ghost predicate SendsWithin(cfg: Config, s: State, sends: nat) {
    && sends <= s.stats.nEvents + s.stats.nRetried + cfg.maxInFlight * (s.stats.nReconnects + cfg.connections)
    && s.stats.nRetried <= cfg.maxEventAttempts * s.stats.nEvents
  }

  lemma Staff(cfg: Config, ls: seq<Label>)
    requires cfg.Positive() && Run(cfg, ls).Some?
    ensures |Run(cfg, ls).value.workers| == cfg.connections
  {
    RunInv(cfg, ls);
  }

  /** Every retry was an OK that matched. */
  lemma RetryBound(cfg: Config, ls: seq<Label>)
    requires cfg.Positive() && Run(cfg, ls).Some?
    ensures Run(cfg, ls).value.stats.nRetried <= cfg.maxEventAttempts * Run(cfg, ls).value.stats.nEvents
  {
    RunEven(cfg, ls);
    MatchedBound(cfg, ls);
  }

  lemma EvenBound(cfg: Config, s: State, t: Tally)
    requires Even(cfg, s, t) && |s.workers| == cfg.connections && s.stats.nRetried <= cfg.maxEventAttempts * s.stats.nEvents
    ensures SendsWithin(cfg, s, t.sends)
  {
    EndedBound(s.workers);
    TimesGrows(cfg.maxInFlight, t.ends, s.stats.nReconnects + cfg.connections);
  }

  lemma TimesGrows(m: nat, a: int, b: int)
    requires a <= b
    ensures a * m <= m * b
  {
  }
}
