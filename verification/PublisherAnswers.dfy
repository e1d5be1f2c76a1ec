/** What became of an event, read off the relay's answers alone. */
module PublisherAnswers {
  import opened Text
  import opened RelayPublisher
  import opened PublisherSafety
  import opened PublisherPatience

  /** The step tells a connection holding `id` that the relay took it, or did not. */
  predicate Tells(s: State, l: Label, id: Id, accepted: bool) {
    l.Ok? && l.id == id && l.accepted == accepted && Answers(s, l, l.w)
  }

  /** How often that happened. */
  ghost function Told(cfg: Config, ls: seq<Label>, id: Id, accepted: bool): nat
    requires Run(cfg, ls).Some?
  {
    if ls == [] then 0
    else
      var n := |ls| - 1;
      Told(cfg, ls[..n], id, accepted) + if Tells(Run(cfg, ls[..n]).value, ls[n], id, accepted) then 1 else 0
  }

  /** What the publisher has on record of one event, and of all. */
  ghost predicate Recorded(s: State, id: Id, yes: nat, no: nat) {
    && yes == (if id in s.log.acked then 1 else 0)
    && no == Attempts(s, id)
    && s.stats.nRetried + s.nResolved == s.log.matched
  }

  lemma OkRecorded(cfg: Config, s: State, l: Label, id: Id, yes: nat, no: nat)
    requires Inv(cfg, s) && Enabled(cfg, s, l) && l.Ok? && Recorded(s, id, yes, no)
    ensures Recorded(Apply(cfg, s, l), id, yes + (if Tells(s, l, id, true) then 1 else 0),
                     no + if Tells(s, l, id, false) then 1 else 0)
  {
    if l.id in s.workers[l.w].pending {
      PendingIsUnsettled(s, l.w, l.id);
      MatchedRecorded(cfg, s, l.w, l.id, l.accepted, id, yes, no);
    }
  }

  /** `_resolve` counts one and changes nothing else on record. */
  lemma ResolveRecord(cfg: Config, s: State)
    ensures var r := Resolve(cfg, s);
            r.log == s.log && r.attempts == s.attempts && r.nResolved == s.nResolved + 1 && r.stats == s.stats
  {
  }

  lemma MatchedRecorded(cfg: Config, s: State, w: nat, x: Id, accepted: bool, id: Id, yes: nat, no: nat)
    requires w < |s.workers| && s.workers[w].Open? && x in s.workers[w].pending && x !in s.log.acked && Recorded(s, id, yes, no)
    ensures Recorded(OnOk(cfg, s, w, x, accepted), id, yes + (if x == id && accepted then 1 else 0),
                     no + if x == id && !accepted then 1 else 0)
  {
    var p := Popped(s, w, x);
    assert p.stats.nRetried + p.nResolved + 1 == p.log.matched;
    if accepted {
      AcceptRecorded(cfg, p, x, id, yes, no);
    } else {
      RefuseRecorded(cfg, p, x, id, yes, no);
    }
  }

  lemma AcceptRecorded(cfg: Config, p: State, x: Id, id: Id, yes: nat, no: nat)
    requires yes == (if id in p.log.acked then 1 else 0) && no == Attempts(p, id) && x !in p.log.acked
    requires p.stats.nRetried + p.nResolved + 1 == p.log.matched
    ensures Recorded(Resolve(cfg, Accept(p, x)), id, yes + (if x == id then 1 else 0), no)
  {
    ResolveRecord(cfg, Accept(p, x));
  }

  lemma RefuseRecorded(cfg: Config, p: State, x: Id, id: Id, yes: nat, no: nat)
    requires yes == (if id in p.log.acked then 1 else 0) && no == Attempts(p, id)
    requires p.stats.nRetried + p.nResolved + 1 == p.log.matched
    ensures var t := Try(p, x);
            && Recorded(Resolve(cfg, Refuse(t, x)), id, yes, no + if x == id then 1 else 0)
            && Recorded(Retry(t, x), id, yes, no + if x == id then 1 else 0)
  {
    ResolveRecord(cfg, Refuse(Try(p, x), x));
  }

  lemma OtherRecorded(cfg: Config, s: State, l: Label, id: Id, yes: nat, no: nat)
    requires Tried(cfg, s) && Enabled(cfg, s, l) && !l.Ok? && Recorded(s, id, yes, no)
    ensures Recorded(Apply(cfg, s, l), id, yes, no)
  {
    if l.Closed? {
      ClosedRecorded(cfg, s, l.w);
    }
  }

  lemma ClosedRecorded(cfg: Config, s: State, w: nat)
    requires Enabled(cfg, s, Closed(w))
    ensures var s' := Apply(cfg, s, Closed(w));
            s'.log == s.log && s'.attempts == s.attempts && s'.nResolved == s.nResolved && s'.stats.nRetried == s.stats.nRetried
  {
  }

  lemma {:induction false} RunRecorded(cfg: Config, ls: seq<Label>, id: Id)
    requires cfg.Positive() && Run(cfg, ls).Some?
    ensures Recorded(Run(cfg, ls).value, id, Told(cfg, ls, id, true), Told(cfg, ls, id, false))
  {
    if ls != [] {
      var n := |ls| - 1;
      var s := Run(cfg, ls[..n]).value;
      RunInv(cfg, ls[..n]);
      RunRecorded(cfg, ls[..n], id);
      if ls[n].Ok? {
        OkRecorded(cfg, s, ls[n], id, Told(cfg, ls[..n], id, true), Told(cfg, ls[..n], id, false));
      } else {
        OtherRecorded(cfg, s, ls[n], id, Told(cfg, ls[..n], id, true), Told(cfg, ls[..n], id, false));
      }
    }
  }

  /** In every reachable state: an event counts as acked exactly when the relay said so, once, to a connection
      holding it; as given up exactly when it said no `maxEventAttempts` times; and every answer for an event
      held settles it or has it tried again. */
  lemma OutcomeMeans(cfg: Config, ls: seq<Label>, id: Id)
    requires cfg.Positive() && Run(cfg, ls).Some?
    ensures Told(cfg, ls, id, true) <= 1 && Told(cfg, ls, id, false) <= cfg.maxEventAttempts
    ensures var s := Run(cfg, ls).value;
            && (id in s.log.acked <==> Told(cfg, ls, id, true) == 1)
            && (id in s.log.refused <==> Told(cfg, ls, id, false) == cfg.maxEventAttempts)
            && s.stats.nRetried + s.nResolved == s.log.matched
  {
    RunRecorded(cfg, ls, id);
    RunInv(cfg, ls);
    SettledCount(Run(cfg, ls).value);
  }

  /** The queue is first in, first out: a step takes its head or adds at its end, so what is queued again after a
      drop or a refusal comes after all that waited. */
  lemma FirstInFirstOut(cfg: Config, s: State, l: Label)
    requires Enabled(cfg, s, l)
    ensures if l.Get? then Apply(cfg, s, l).todo == s.todo[1..] else s.todo <= Apply(cfg, s, l).todo
  {
    if l.Ok? {
      OkQueue(cfg, s, l.w, l.id, l.accepted);
    } else if l.Closed? {
      ClosedQueue(cfg, s, l.w);
    }
  }

  lemma OkQueue(cfg: Config, s: State, w: nat, id: Id, accepted: bool)
    requires w < |s.workers| && s.workers[w].Open?
    ensures id in s.workers[w].pending ==> s.todo <= OnOk(cfg, s, w, id, accepted).todo
  {
    if id in s.workers[w].pending {
      assert Popped(s, w, id).todo == s.todo;
    }
  }

  lemma ClosedQueue(cfg: Config, s: State, w: nat)
    requires w < |s.workers| && s.workers[w].Closing?
    ensures s.todo <= AfterClose(cfg, s, w).todo
  {
  }
}
