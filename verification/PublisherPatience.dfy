/** When the relay publisher gives a connection up, read off the steps of the run alone: a worker's
    connections in the order they ended, and which of them saw the relay answer for an event they held. */
module PublisherPatience {
  import opened Text
  import opened RelayPublisher
  import opened PublisherSafety
  import opened PublisherProgress

  // --- A worker's connections, from the steps of a run ---

  /** The step answers an event that `w`'s connection has sent and is waiting for. */
  predicate Answers(s: State, l: Label, w: nat) {
    l.Ok? && l.w == w && w < |s.workers| && s.workers[w].Open? && l.id in s.workers[w].pending
  }

  /** Some step since the last end of a connection of `w` answered an event it held. */
  ghost predicate Fruitful(cfg: Config, ls: seq<Label>, w: nat)
    requires Run(cfg, ls).Some?
  {
    ls != [] && (
      var n := |ls| - 1;
      ls[n] != Closed(w) && (Answers(Run(cfg, ls[..n]).value, ls[n], w) || Fruitful(cfg, ls[..n], w)))
  }

  /** The connections of `w` that have ended, each with whether it was fruitful. */
  ghost function Ended(cfg: Config, ls: seq<Label>, w: nat): seq<bool>
    requires Run(cfg, ls).Some?
  {
    if ls == [] then []
    else
      var n := |ls| - 1;
      Ended(cfg, ls[..n], w) + if ls[n] == Closed(w) then [Fruitful(cfg, ls[..n], w)] else []
  }

  /** The last `k` of these connections all ended fruitless. */
  ghost predicate LastFruitless(ends: seq<bool>, k: nat) {
    |ends| >= k && forall i :: |ends| - k <= i < |ends| ==> !ends[i]
  }

  function Streak(ends: seq<bool>): nat {
    if ends == [] || ends[|ends| - 1] then 0 else Streak(ends[..|ends| - 1]) + 1
  }

  lemma {:induction false} StreakIs(ends: seq<bool>, k: nat)
    ensures LastFruitless(ends, k) <==> Streak(ends) >= k
  {
    if ends != [] && !ends[|ends| - 1] && k > 0 {
      var rest := ends[..|ends| - 1];
      StreakIs(rest, k - 1);
      assert LastFruitless(ends, k) ==> LastFruitless(rest, k - 1);
      if LastFruitless(rest, k - 1) {
        forall i | |ends| - k <= i < |ends| ensures !ends[i] {
          assert i < |rest| ==> ends[i] == rest[i];
        }
      }
    } else if k > 0 && ends != [] {
      assert ends[|ends| - 1];
    }
  }

  // --- What a worker remembers of them ---

  /** A worker's counter and its mark of progress are those of its connections. */
  predicate Remembers(w: Worker, ends: seq<bool>, fruitful: bool, max: nat, done: bool) {
    match w
    case Idle(f) => !fruitful && f == Streak(ends) && f < max
    case Connecting(f) => !fruitful && f == Streak(ends) && f < max
    case Open(f, _, _, _, progress) => progress == fruitful && f == Streak(ends) && f < max
    case Closing(f, progress) => progress == fruitful && f == Streak(ends) && f < max
    case Dead => Streak(ends) >= max
    case Exited => done
  }

  /** The steps of the producer and the retry timers leave the workers alone. */
  lemma OutsideRemembers(cfg: Config, s: State, l: Label)
    requires Enabled(cfg, s, l) && (l.Produce? || l.ProduceEnd? || l.ProduceFails? || l.Fire?)
    ensures Apply(cfg, s, l).workers == s.workers && (s.done ==> Apply(cfg, s, l).done)
  {
  }

  /** A worker's own step short of an answer or an end leaves what it remembers as it was. */
  lemma MoveRemembers(cfg: Config, s: State, l: Label, w: nat, ends: seq<bool>, fruitful: bool)
    requires Enabled(cfg, s, l) && w < |s.workers| && Moves(l)
    requires Remembers(s.workers[w], ends, fruitful, cfg.maxConnectAttempts, s.done)
    ensures var s' := Apply(cfg, s, l);
            |s'.workers| == |s.workers| && s'.done == s.done
            && Remembers(s'.workers[w], ends, fruitful, cfg.maxConnectAttempts, s.done)
  {
    if l.w == w {
      OwnMove(cfg, s, l, ends, fruitful);
    } else {
      MoveFrame(cfg, s, l);
    }
  }

  lemma OwnMove(cfg: Config, s: State, l: Label, ends: seq<bool>, fruitful: bool)
    requires Enabled(cfg, s, l) && Moves(l)
    requires Remembers(s.workers[l.w], ends, fruitful, cfg.maxConnectAttempts, s.done)
    ensures var s' := Apply(cfg, s, l);
            |s'.workers| == |s.workers| && s'.done == s.done
            && Remembers(s'.workers[l.w], ends, fruitful, cfg.maxConnectAttempts, s.done)
  {
    if l.Acquire? || l.Get? || l.Sent? {
      SendKeeps(cfg, s, l);
    } else {
      ConnectionMove(cfg, s, l, ends, fruitful);
    }
  }

  /** Neither the counter nor the mark of an open connection is touched. */
  predicate SameOpen(o: Worker, o': Worker) {
    o.Open? && o'.Open? && o'.failures == o.failures && o'.progress == o.progress
  }

  lemma SendKeeps(cfg: Config, s: State, l: Label)
    requires Enabled(cfg, s, l) && (l.Acquire? || l.Get? || l.Sent?)
    ensures var s' := Apply(cfg, s, l);
            |s'.workers| == |s.workers| && s'.done == s.done && SameOpen(s.workers[l.w], s'.workers[l.w])
  {
    if l.Get? {
      GetKeeps(cfg, s, l.w);
    }
  }

  lemma GetKeeps(cfg: Config, s: State, w: nat)
    requires Enabled(cfg, s, Get(w))
    ensures var s' := Apply(cfg, s, Get(w));
            |s'.workers| == |s.workers| && s'.done == s.done && SameOpen(s.workers[w], s'.workers[w])
  {
  }

  lemma ConnectionMove(cfg: Config, s: State, l: Label, ends: seq<bool>, fruitful: bool)
    requires Enabled(cfg, s, l) && (l.Start? || l.Connect? || l.ConnectFails? || l.Drop? || l.Cancel?)
    requires Remembers(s.workers[l.w], ends, fruitful, cfg.maxConnectAttempts, s.done)
    ensures var s' := Apply(cfg, s, l);
            |s'.workers| == |s.workers| && s'.done == s.done
            && Remembers(s'.workers[l.w], ends, fruitful, cfg.maxConnectAttempts, s.done)
  {
  }

  lemma MoveFrame(cfg: Config, s: State, l: Label)
    requires Enabled(cfg, s, l) && Moves(l)
    ensures var s' := Apply(cfg, s, l);
            |s'.workers| == |s.workers| && s'.done == s.done
            && forall v :: 0 <= v < |s.workers| && v != l.w ==> s'.workers[v] == s.workers[v]
  {
  }

  lemma OkRemembers(cfg: Config, s: State, l: Label, w: nat, ends: seq<bool>, fruitful: bool)
    requires Enabled(cfg, s, l) && w < |s.workers| && l.Ok?
    requires Remembers(s.workers[w], ends, fruitful, cfg.maxConnectAttempts, s.done)
    ensures var s' := Apply(cfg, s, l);
            |s'.workers| == |s.workers| && (s.done ==> s'.done)
            && Remembers(s'.workers[w], ends, fruitful || Answers(s, l, w), cfg.maxConnectAttempts, s'.done)
  {
    if l.id in s.workers[l.w].pending {
      OkWorkers(cfg, s, l.w, l.id, l.accepted);
      assert Remembers(Popped(s, l.w, l.id).workers[w], ends, fruitful || Answers(s, l, w), cfg.maxConnectAttempts, s.done);
    }
  }

  /** Whatever an answer leads to, the connections are as taking the event out left them. */
  lemma OkWorkers(cfg: Config, s: State, w: nat, id: Id, accepted: bool)
    requires w < |s.workers| && s.workers[w].Open? && id in s.workers[w].pending
    ensures OnOk(cfg, s, w, id, accepted).workers == Popped(s, w, id).workers
    ensures s.done ==> OnOk(cfg, s, w, id, accepted).done
  {
  }

  lemma ClosedRemembers(cfg: Config, s: State, v: nat, w: nat, ends: seq<bool>, fruitful: bool)
    requires Enabled(cfg, s, Closed(v)) && w < |s.workers| && cfg.maxConnectAttempts > 0
    requires Remembers(s.workers[w], ends, fruitful, cfg.maxConnectAttempts, s.done)
    ensures var s' := Apply(cfg, s, Closed(v));
            |s'.workers| == |s.workers| && (s.done ==> s'.done)
            && Remembers(s'.workers[w], if v == w then ends + [fruitful] else ends, v != w && fruitful,
                         cfg.maxConnectAttempts, s'.done)
  {
    assert (ends + [fruitful])[..|ends|] == ends;
  }

  /** The connections that have ended once the step is taken, given those before and the one that was open. */
  ghost function EndedBy(l: Label, w: nat, ends: seq<bool>, fruitful: bool): seq<bool> {
    if l == Closed(w) then ends + [fruitful] else ends
  }

  lemma StepRemembers(cfg: Config, s: State, l: Label, w: nat, ends: seq<bool>, fruitful: bool)
    requires Enabled(cfg, s, l) && w < |s.workers| && cfg.maxConnectAttempts > 0
    requires Remembers(s.workers[w], ends, fruitful, cfg.maxConnectAttempts, s.done)
    ensures var s' := Apply(cfg, s, l);
            |s'.workers| == |s.workers|
            && Remembers(s'.workers[w], EndedBy(l, w, ends, fruitful), l != Closed(w) && (Answers(s, l, w) || fruitful),
                         cfg.maxConnectAttempts, s'.done)
  {
    if l.Closed? {
      ClosedRemembers(cfg, s, l.w, w, ends, fruitful);
    } else if l.Ok? {
      OkRemembers(cfg, s, l, w, ends, fruitful);
    } else if Moves(l) {
      MoveRemembers(cfg, s, l, w, ends, fruitful);
    } else {
      OutsideRemembers(cfg, s, l);
    }
  }

  lemma {:induction false} RunRemembers(cfg: Config, ls: seq<Label>, w: nat)
    requires cfg.Positive() && Run(cfg, ls).Some? && w < cfg.connections
    ensures var s := Run(cfg, ls).value;
            |s.workers| == cfg.connections
            && Remembers(s.workers[w], Ended(cfg, ls, w), Fruitful(cfg, ls, w), cfg.maxConnectAttempts, s.done)
  {
    if ls != [] {
      var n := |ls| - 1;
      RunRemembers(cfg, ls[..n], w);
      StepRemembers(cfg, Run(cfg, ls[..n]).value, ls[n], w, Ended(cfg, ls[..n], w), Fruitful(cfg, ls[..n], w));
      assert Ended(cfg, ls, w) == EndedBy(ls[n], w, Ended(cfg, ls[..n], w), Fruitful(cfg, ls[..n], w));
    }
  }

  // --- What it means ---

  /** A worker has given up exactly when its last `maxConnectAttempts` connections ended with no answer for
      anything they held; a worker that gave up before the run was over did so for that reason. */
  lemma DeadMeans(cfg: Config, ls: seq<Label>, w: nat)
    requires cfg.Positive() && Run(cfg, ls).Some? && w < cfg.connections
    ensures var s := Run(cfg, ls).value;
            && |s.workers| == cfg.connections
            && (s.workers[w].Dead? ==> LastFruitless(Ended(cfg, ls, w), cfg.maxConnectAttempts))
            && (!s.done ==> (s.workers[w].Dead? <==> LastFruitless(Ended(cfg, ls, w), cfg.maxConnectAttempts)))
  {
    RunRemembers(cfg, ls, w);
    StreakIs(Ended(cfg, ls, w), cfg.maxConnectAttempts);
  }

  /** What closing does to a worker that remembers its connections. */
  lemma AfterCloseRemembers(cfg: Config, s: State, w: nat, ends: seq<bool>, fruitful: bool)
    requires w < |s.workers| && s.workers[w].Closing? && !s.done && cfg.maxConnectAttempts > 0
    requires Remembers(s.workers[w], ends, fruitful, cfg.maxConnectAttempts, s.done)
    ensures Reconnected(cfg, s, AfterClose(cfg, s, w), w, ends + [fruitful])
  {
    StreakIs(ends + [fruitful], cfg.maxConnectAttempts);
    assert (ends + [fruitful])[..|ends|] == ends;
  }

  /** From `s` to `s'` worker `w` closed a connection, the last of `ends`: it gives up if this ends
      `maxConnectAttempts` fruitless ones, else it reconnects, free of earlier failures if it was fruitful. */
  ghost predicate Reconnected(cfg: Config, s: State, s': State, w: nat, ends: seq<bool>)
    requires ends != []
  {
    && w < |s'.workers|
    && (if LastFruitless(ends, cfg.maxConnectAttempts)
        then s'.workers[w] == Dead && s'.stats.nReconnects == s.stats.nReconnects
        else s'.workers[w].Idle? && s'.stats.nReconnects == s.stats.nReconnects + 1 && !s'.done)
    && (ends[|ends| - 1] ==> s'.workers[w] == Idle(0))
  }

  /** When a connection has closed and the run is not over, the worker reconnects unless this end is the
      last of `maxConnectAttempts` fruitless ones; so after a fruitful connection it always does. */
  lemma ReconnectsUnless(cfg: Config, ls: seq<Label>, w: nat)
    requires cfg.Positive() && Run(cfg, ls).Some? && w < cfg.connections && !Run(cfg, ls).value.done
    requires Enabled(cfg, Run(cfg, ls).value, Closed(w))
    ensures Run(cfg, ls + [Closed(w)]).Some?
    ensures Reconnected(cfg, Run(cfg, ls).value, Run(cfg, ls + [Closed(w)]).value, w,
                        Ended(cfg, ls, w) + [Fruitful(cfg, ls, w)])
  {
    assert (ls + [Closed(w)])[..|ls|] == ls;
    RunRemembers(cfg, ls, w);
    AfterCloseRemembers(cfg, Run(cfg, ls).value, w, Ended(cfg, ls, w), Fruitful(cfg, ls, w));
  }

  /** A worker can still come to an open connection exactly when those that ended, with the one now closing,
      do not finish with `maxConnectAttempts` fruitless ones. */
  lemma ViableMeans(cfg: Config, ls: seq<Label>, w: nat)
    requires cfg.Positive() && Run(cfg, ls).Some? && w < cfg.connections && !Run(cfg, ls).value.done
    ensures |Run(cfg, ls).value.workers| == cfg.connections
    ensures var o := Run(cfg, ls).value.workers[w];
            Viable(cfg, o) <==>
            !LastFruitless(Ended(cfg, ls, w) + (if o.Closing? then [Fruitful(cfg, ls, w)] else []), cfg.maxConnectAttempts)
  {
    RunRemembers(cfg, ls, w);
    var o := Run(cfg, ls).value.workers[w];
    var ends := Ended(cfg, ls, w) + if o.Closing? then [Fruitful(cfg, ls, w)] else [];
    StreakIs(ends, cfg.maxConnectAttempts);
    if o.Closing? {
      assert ends[..|ends| - 1] == Ended(cfg, ls, w);
    } else {
      assert ends == Ended(cfg, ls, w);
    }
  }

  /** The publisher gives the relay up only when every one of its workers met `maxConnectAttempts` fruitless
      connections in a row. */
  lemma AbortedMeans(cfg: Config, ls: seq<Label>)
    requires cfg.Positive() && Run(cfg, ls).Some? && Run(cfg, ls).value.stats.aborted
    ensures forall w :: 0 <= w < cfg.connections ==> LastFruitless(Ended(cfg, ls, w), cfg.maxConnectAttempts)
  {
    RunInv(cfg, ls);
    AllDead(Run(cfg, ls).value.workers);
    forall w | 0 <= w < cfg.connections ensures LastFruitless(Ended(cfg, ls, w), cfg.maxConnectAttempts) {
      DeadMeans(cfg, ls, w);
    }
  }
}
