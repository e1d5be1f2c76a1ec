/** When a publish run that is not over can still end well: exactly while some connection can still be had. */
module PublisherProgress {
  import opened Text
  import opened RelayPublisher
  import opened PublisherSafety

  // --- Before the end there are no sentinels ---

  ghost predicate Unsealed(s: State) {
    !s.done ==>
      && (forall i :: 0 <= i < |s.todo| ==> s.todo[i].Some?)
      && (forall w :: 0 <= w < |s.workers| && s.workers[w].Open? ==> !s.workers[w].sender.Stopped?)
  }

  lemma UnsealedStep(cfg: Config, s: State, l: Label)
    requires Unsealed(s) && Enabled(cfg, s, l)
    ensures Unsealed(Apply(cfg, s, l))
  {
    if Moves(l) {
      UnsealedMove(cfg, s, l);
    } else {
      match l
      case Ok(w, id, accepted) =>
        if id in s.workers[w].pending {
          UnsealedOk(cfg, s, w, id, accepted);
        }
      case Closed(w) => UnsealedClosed(cfg, s, w);
      case _ =>
    }
  }

  lemma UnsealedMove(cfg: Config, s: State, l: Label)
    requires Unsealed(s) && Enabled(cfg, s, l) && Moves(l)
    ensures Unsealed(Apply(cfg, s, l))
  {
  }

  lemma UnsealedOk(cfg: Config, s: State, w: nat, id: Id, accepted: bool)
    requires Unsealed(s) && w < |s.workers| && s.workers[w].Open? && id in s.workers[w].pending
    ensures Unsealed(OnOk(cfg, s, w, id, accepted))
  {
    assert Unsealed(Popped(s, w, id));
  }

  lemma UnsealedClosed(cfg: Config, s: State, w: nat)
    requires Unsealed(s) && w < |s.workers| && s.workers[w].Closing?
    ensures Unsealed(AfterClose(cfg, s, w))
  {
  }

  lemma {:induction false} RunUnsealed(cfg: Config, ls: seq<Label>)
    requires Run(cfg, ls).Some?
    ensures Unsealed(Run(cfg, ls).value)
  {
    if ls != [] {
      var n := |ls| - 1;
      RunUnsealed(cfg, ls[..n]);
      UnsealedStep(cfg, Run(cfg, ls[..n]).value, ls[n]);
    }
  }

  // --- Continuations ---

  /** The steps `ls` lead from `s` to `t`. */
  ghost predicate Leads(cfg: Config, s: State, ls: seq<Label>, t: State)
    decreases |ls|
  {
    if ls == [] then s == t else Enabled(cfg, s, ls[0]) && Leads(cfg, Apply(cfg, s, ls[0]), ls[1..], t)
  }

  lemma LeadsFrom(cfg: Config, s: State, l: Label, ls: seq<Label>, t: State)
    requires Enabled(cfg, s, l) && Leads(cfg, Apply(cfg, s, l), ls, t)
    ensures Leads(cfg, s, [l] + ls, t)
  {
    assert ([l] + ls)[1..] == ls;
  }

  /** Nothing goes wrong: no lost or refused connection, no refused event, no cancellation. */
  predicate Smooth(l: Label) {
    l.Fire? || l.Start? || l.Connect? || l.Acquire? || l.Get? || l.Sent? || l.Closed? || (l.Ok? && l.accepted)
  }

  ghost predicate AllSmooth(ls: seq<Label>) {
    forall i :: 0 <= i < |ls| ==> Smooth(ls[i])
  }

  /** The run ended without giving up: all that was not refused before is now acked. */
  ghost predicate EndsWell(s: State, t: State) {
    && t.done && !t.stats.aborted
    && t.log.produced == s.log.produced && t.log.refused == s.log.refused
    && forall id :: id in t.log.produced ==> id in t.log.acked || id in t.log.refused
  }

  /** All events are produced and the run is not over. */
  ghost predicate Late(cfg: Config, s: State) {
    cfg.Positive() && Inv(cfg, s) && Unsealed(s) && s.producedAll && !s.done
  }

  lemma LateStep(cfg: Config, s: State, l: Label)
    requires Late(cfg, s) && Enabled(cfg, s, l) && Smooth(l)
    ensures Inv(cfg, Apply(cfg, s, l)) && Unsealed(Apply(cfg, s, l))
    ensures !Apply(cfg, s, l).done ==> Late(cfg, Apply(cfg, s, l))
  {
    InvStep(cfg, s, l);
    UnsealedStep(cfg, s, l);
    SmoothKeepsProduced(cfg, s, l);
  }

  /** What the smooth steps leave alone: who was produced and who was refused. */
  ghost predicate SameAims(s: State, t: State) {
    t.producedAll == s.producedAll && t.producerFailed == s.producerFailed
    && t.log.produced == s.log.produced && t.log.refused == s.log.refused
  }

  lemma SmoothKeepsProduced(cfg: Config, s: State, l: Label)
    requires Enabled(cfg, s, l) && Smooth(l)
    ensures SameAims(s, Apply(cfg, s, l))
  {
    match l
    case Ok(w, id, _) =>
      if id in s.workers[w].pending {
        OkKeepsProduced(cfg, s, w, id);
      }
    case Closed(w) => ClosedKeepsProduced(cfg, s, w);
    case _ =>
  }

  lemma OkKeepsProduced(cfg: Config, s: State, w: nat, id: Id)
    requires w < |s.workers| && s.workers[w].Open? && id in s.workers[w].pending
    ensures SameAims(s, OnOk(cfg, s, w, id, true))
  {
    assert SameAims(s, Accept(Popped(s, w, id), id));
  }

  lemma ClosedKeepsProduced(cfg: Config, s: State, w: nat)
    requires w < |s.workers| && s.workers[w].Closing?
    ensures SameAims(s, AfterClose(cfg, s, w))
  {
  }

  // --- Draining through one open connection ---

  function SenderRank(w: Worker): nat {
    if !w.Open? then 0
    else match w.sender
      case Sending => 2
      case Acquiring => 1
      case _ => 0
  }

  function Outstanding(s: State): nat {
    if s.nResolved <= s.stats.nEvents then s.stats.nEvents - s.nResolved else 0
  }

  /** A connection holds an event the relay can still accept. */
  predicate Holds(s: State, v: nat) {
    v < |s.workers| && s.workers[v].Open? && s.workers[v].pending != []
  }

  lemma {:induction false} NoneHeld(id: Id, ws: seq<Worker>)
    requires forall v :: 0 <= v < |ws| && ws[v].Open? ==> ws[v].pending == []
    ensures Sum(HeldOf(id), ws) == 0
  {
    if ws != [] {
      NoneHeld(id, ws[..|ws| - 1]);
    }
  }

  /** Where no connection holds anything and no retry waits, what is left to settle is queued. */
  lemma RestIsQueued(cfg: Config, s: State)
    requires Late(cfg, s) && s.retries == multiset{} && forall v :: !Holds(s, v)
    ensures s.todo != [] && s.todo[0].Some?
  {
    NotOver(cfg, s);
    var id :| id in s.log.produced && id !in s.log.acked && id !in s.log.refused;
    assert forall v :: 0 <= v < |s.workers| && s.workers[v].Open? ==> !Holds(s, v);
    NoneHeld(id, s.workers);
    assert Places(s, id) == 1;
  }

  lemma OkDrains(cfg: Config, s: State, w: nat, v: nat)
    requires Late(cfg, s) && w < |s.workers| && s.workers[w].Open? && Holds(s, v)
    ensures var l := Ok(v, s.workers[v].pending[0], true);
            var s1 := Apply(cfg, s, l);
            Enabled(cfg, s, l) && Outstanding(s1) < Outstanding(s) && w < |s1.workers| && s1.workers[w].Open?
            && s1.stats.aborted == s.stats.aborted
  {
    PendingIsUnsettled(s, v, s.workers[v].pending[0]);
  }

  lemma EndIsWell(cfg: Config, s: State, l: Label)
    requires Late(cfg, s) && Enabled(cfg, s, l) && Smooth(l) && Apply(cfg, s, l).done && !Apply(cfg, s, l).stats.aborted
    ensures EndsWell(s, Apply(cfg, s, l))
  {
    var t := Apply(cfg, s, l);
    LateStep(cfg, s, l);
    SmoothKeepsProduced(cfg, s, l);
    assert EndsRight(s) && EndsRight(t);
    SettledCount(t);
  }

  lemma FireDrains(cfg: Config, s: State, w: nat, id: Id)
    requires Late(cfg, s) && w < |s.workers| && s.workers[w].Open? && id in s.retries
    ensures var s1 := Apply(cfg, s, Fire(id));
            && Enabled(cfg, s, Fire(id)) && !s1.done && Outstanding(s1) == Outstanding(s) && |s1.retries| < |s.retries|
            && s1.workers == s.workers
  {
  }

  /** With nothing held and no retry waiting, the open connection takes the next event from the queue. */
  lemma SendDrains(cfg: Config, s: State, w: nat) returns (l: Label)
    requires Late(cfg, s) && w < |s.workers| && s.workers[w].Open? && s.retries == multiset{} && forall v :: !Holds(s, v)
    ensures Smooth(l) && Enabled(cfg, s, l)
    ensures var s1 := Apply(cfg, s, l);
            && !s1.done && Outstanding(s1) == Outstanding(s) && s1.retries == s.retries
            && w < |s1.workers| && s1.workers[w].Open?
            && (|s1.todo| < |s.todo| || (|s1.todo| == |s.todo| && SenderRank(s1.workers[w]) < SenderRank(s.workers[w])))
  {
    RestIsQueued(cfg, s);
    assert Slotted(s.workers[w], cfg.maxInFlight) && !Holds(s, w);
    match s.workers[w].sender
    case Sending => l := Sent(w);
    case Acquiring => l := Acquire(w);
    case Getting => l := Get(w);
    case Stopped =>
  }

  /** Fewer events to settle, or as many and fewer retries waiting, queued or before the next send. */
  predicate Closer(s1: State, s: State, w: nat)
    requires w < |s.workers| && w < |s1.workers|
  {
    || Outstanding(s1) < Outstanding(s)
    || (Outstanding(s1) == Outstanding(s) && (
          || |s1.retries| < |s.retries|
          || (|s1.retries| == |s.retries| && (
                || |s1.todo| < |s.todo|
                || (|s1.todo| == |s.todo| && SenderRank(s1.workers[w]) < SenderRank(s.workers[w]))))))
  }

  lemma NextSmooth(cfg: Config, s: State, w: nat) returns (l: Label)
    requires Late(cfg, s) && w < |s.workers| && s.workers[w].Open?
    ensures Smooth(l) && !l.Closed? && Enabled(cfg, s, l)
    ensures var s1 := Apply(cfg, s, l); w < |s1.workers| && s1.workers[w].Open? && Closer(s1, s, w)
  {
    if v: nat :| Holds(s, v) {
      OkDrains(cfg, s, w, v);
      l := Ok(v, s.workers[v].pending[0], true);
    } else if id :| id in s.retries {
      FireDrains(cfg, s, w, id);
      l := Fire(id);
    } else {
      assert s.retries == multiset{};
      l := SendDrains(cfg, s, w);
    }
  }

  lemma WellThrough(cfg: Config, s: State, l: Label, t: State)
    requires Enabled(cfg, s, l) && Smooth(l) && EndsWell(Apply(cfg, s, l), t)
    ensures EndsWell(s, t)
  {
    SmoothKeepsProduced(cfg, s, l);
  }

  /** From a state with an open connection everything left can be delivered. */
  lemma {:induction false} Drain(cfg: Config, s: State, w: nat) returns (ls: seq<Label>, t: State)
    requires Late(cfg, s) && w < |s.workers| && s.workers[w].Open?
    ensures Leads(cfg, s, ls, t) && AllSmooth(ls) && EndsWell(s, t)
    decreases Outstanding(s), |s.retries|, |s.todo|, SenderRank(s.workers[w])
  {
    var l := NextSmooth(cfg, s, w);
    LateStep(cfg, s, l);
    if Apply(cfg, s, l).done {
      NotAborted(cfg, s, l);
      EndIsWell(cfg, s, l);
      ls, t := [], Apply(cfg, s, l);
    } else {
      ls, t := Drain(cfg, Apply(cfg, s, l), w);
      WellThrough(cfg, s, l, t);
    }
    LeadsFrom(cfg, s, l, ls, t);
    ls := [l] + ls;
  }

  lemma NotAborted(cfg: Config, s: State, l: Label)
    requires Late(cfg, s) && Enabled(cfg, s, l) && Smooth(l) && !l.Closed?
    ensures !Apply(cfg, s, l).stats.aborted
  {
    assert EndsRight(s);
  }

  // --- Getting a connection ---

  /** The worker can still come to an open connection. */
  predicate Viable(cfg: Config, w: Worker) {
    match w
    case Idle(_) => true
    case Connecting(_) => true
    case Open(_, _, _, _, _) => true
    case Closing(f, progress) => progress || f + 1 < cfg.maxConnectAttempts
    case _ => false
  }

  function Distance(w: Worker): nat {
    match w
    case Closing(_, _) => 3
    case Idle(_) => 2
    case Connecting(_) => 1
    case _ => 0
  }

  lemma TowardsOpen(cfg: Config, s: State, w: nat) returns (l: Label)
    requires Late(cfg, s) && w < |s.workers| && Viable(cfg, s.workers[w]) && !s.workers[w].Open?
    ensures Smooth(l) && Enabled(cfg, s, l)
    ensures var s1 := Apply(cfg, s, l);
            !s1.done && w < |s1.workers| && Viable(cfg, s1.workers[w]) && Distance(s1.workers[w]) < Distance(s.workers[w])
  {
    match s.workers[w]
    case Closing(_, _) => l := Closed(w);
    case Idle(_) => l := Start(w);
    case Connecting(_) => l := Connect(w);
  }

  lemma {:induction false} OpenAndDrain(cfg: Config, s: State, w: nat) returns (ls: seq<Label>, t: State)
    requires Late(cfg, s) && w < |s.workers| && Viable(cfg, s.workers[w])
    ensures Leads(cfg, s, ls, t) && AllSmooth(ls) && EndsWell(s, t)
    decreases Distance(s.workers[w])
  {
    if s.workers[w].Open? {
      ls, t := Drain(cfg, s, w);
    } else {
      var l := TowardsOpen(cfg, s, w);
      LateStep(cfg, s, l);
      ls, t := OpenAndDrain(cfg, Apply(cfg, s, l), w);
      WellThrough(cfg, s, l, t);
      LeadsFrom(cfg, s, l, ls, t);
      ls := [l] + ls;
    }
  }

  // --- And when there is none to be had ---

  /** No worker can open a connection any more. */
  ghost predicate Doomed(cfg: Config, s: State) {
    forall w :: 0 <= w < |s.workers| ==> !Viable(cfg, s.workers[w])
  }

  ghost predicate Lost(cfg: Config, s: State) {
    s.stats.aborted || (!s.done && Doomed(cfg, s) && s.producedAll)
  }

  lemma AbortedStays(cfg: Config, s: State, l: Label)
    requires s.stats.aborted && Enabled(cfg, s, l)
    ensures Apply(cfg, s, l).stats.aborted
  {
    match l
    case Ok(w, id, accepted) =>
      if id in s.workers[w].pending {
        AbortedOk(cfg, s, w, id, accepted);
      }
    case Closed(w) => AbortedClosed(cfg, s, w);
    case _ =>
  }

  lemma AbortedOk(cfg: Config, s: State, w: nat, id: Id, accepted: bool)
    requires s.stats.aborted && w < |s.workers| && s.workers[w].Open? && id in s.workers[w].pending
    ensures OnOk(cfg, s, w, id, accepted).stats.aborted
  {
    assert Popped(s, w, id).stats.aborted;
  }

  lemma AbortedClosed(cfg: Config, s: State, w: nat)
    requires s.stats.aborted && w < |s.workers| && s.workers[w].Closing?
    ensures AfterClose(cfg, s, w).stats.aborted
  {
  }

  /** With no worker viable, only a retry's delay or a closing worker has a step left. */
  lemma DoomedLabel(cfg: Config, s: State, l: Label)
    requires Inv(cfg, s) && !s.done && Doomed(cfg, s) && s.producedAll && Enabled(cfg, s, l)
    ensures l.Fire? || l.Closed?
  {
    forall w | 0 <= w < |s.workers| ensures s.workers[w].Dead? || s.workers[w].Closing? {
      assert Fit(s.workers[w], cfg.maxConnectAttempts, s.done) && !Viable(cfg, s.workers[w]);
    }
  }

  lemma DoomedClosed(cfg: Config, s: State, w: nat)
    requires !s.done && Doomed(cfg, s) && s.producedAll && w < |s.workers| && s.workers[w].Closing?
    ensures Lost(cfg, AfterClose(cfg, s, w))
  {
    assert !Viable(cfg, s.workers[w]);
    var dead := Put(s, w, Dead).(deadWorkers := s.deadWorkers + 1);
    assert Doomed(cfg, dead);
  }

  lemma LostStep(cfg: Config, s: State, l: Label)
    requires cfg.Positive() && Inv(cfg, s) && Lost(cfg, s) && Enabled(cfg, s, l)
    ensures Lost(cfg, Apply(cfg, s, l))
  {
    if s.stats.aborted {
      AbortedStays(cfg, s, l);
    } else {
      DoomedLabel(cfg, s, l);
      if l.Closed? {
        DoomedClosed(cfg, s, l.w);
      } else {
        assert Doomed(cfg, Apply(cfg, s, l));
      }
    }
  }

  lemma {:induction false} LostForGood(cfg: Config, s: State, ls: seq<Label>, t: State)
    requires cfg.Positive() && Inv(cfg, s) && Lost(cfg, s) && Leads(cfg, s, ls, t)
    ensures Lost(cfg, t)
    decreases |ls|
  {
    if ls != [] {
      InvStep(cfg, s, ls[0]);
      LostStep(cfg, s, ls[0]);
      LostForGood(cfg, Apply(cfg, s, ls[0]), ls[1..], t);
    }
  }

  /** From every reachable state where all events are produced and the run is not over: it can still end
      without giving up, delivering all that is left, if and only if some worker can still open a connection. */
  lemma CanEndWell(cfg: Config, run: seq<Label>)
    requires cfg.Positive() && Run(cfg, run).Some?
    requires Run(cfg, run).value.producedAll && !Run(cfg, run).value.done
    ensures var s := Run(cfg, run).value;
            (exists w :: 0 <= w < |s.workers| && Viable(cfg, s.workers[w])) <==>
            (exists ls, t :: Leads(cfg, s, ls, t) && EndsWell(s, t))
    ensures var s := Run(cfg, run).value;
            (exists w :: 0 <= w < |s.workers| && Viable(cfg, s.workers[w])) ==>
            (exists ls, t :: Leads(cfg, s, ls, t) && AllSmooth(ls) && EndsWell(s, t))
  {
    RunInv(cfg, run);
    RunUnsealed(cfg, run);
    var s := Run(cfg, run).value;
    if exists w :: 0 <= w < |s.workers| && Viable(cfg, s.workers[w]) {
      ViableEndsWell(cfg, s);
    } else {
      DoomedEndsBadly(cfg, s);
    }
  }

  lemma ViableEndsWell(cfg: Config, s: State)
    requires Late(cfg, s) && exists w :: 0 <= w < |s.workers| && Viable(cfg, s.workers[w])
    ensures exists ls, t :: Leads(cfg, s, ls, t) && AllSmooth(ls) && EndsWell(s, t)
  {
    var w :| 0 <= w < |s.workers| && Viable(cfg, s.workers[w]);
    var ls, t := OpenAndDrain(cfg, s, w);
  }

  lemma DoomedEndsBadly(cfg: Config, s: State)
    requires Late(cfg, s) && Doomed(cfg, s)
    ensures forall ls, t :: Leads(cfg, s, ls, t) ==> !EndsWell(s, t)
  {
    forall ls, t | Leads(cfg, s, ls, t) ensures !EndsWell(s, t) {
      LostForGood(cfg, s, ls, t);
    }
  }
}
