/** How often a message was tried, read off the steps of the run alone. */
module ResultQueueAttempts {
  import opened Text
  import opened Sorting
  import opened ResultQueue
  import opened ResultQueueSafety

  /** The step counts a try of `m` at `q`. */
  predicate Counts(s: State, l: Label, q: Queue, m: Message) {
    l == Count(q) && q in s.queues && s.queues[q].phase == Taken(m)
  }

  /** How many tries of `m` at `q` were counted, whatever came of them. */
  ghost function Tries(qs: set<Queue>, ls: seq<Label>, q: Queue, m: Message): nat
    requires Run(qs, ls).Some?
  {
    if ls == [] then 0
    else
      var n := |ls| - 1;
      Tries(qs, ls[..n], q, m) + if Counts(Run(qs, ls[..n]).value, ls[n], q, m) then 1 else 0
  }

  /** A step of one queue leaves the counter of an unacked message alone, but for counting it. */
  lemma OwnCounter(s: State, l: Label, m: Message)
    requires !l.Publish? && !l.Inline? && Enabled(s, l) && Accounted(s.queues[l.q])
    ensures var c, c' := s.queues[l.q], Apply(s, l).queues[l.q];
            && (m !in c'.acked ==> m !in c.acked)
            && (m !in c'.acked ==> Get(c'.attempts, m) == Get(c.attempts, m) + if Counts(s, l, l.q, m) then 1 else 0)
  {
    match l
    case Ack(q) => assert forall x :: x in s.queues[q].acked ==> x in AckMessage(s.queues[q]).acked;
    case _ =>
  }

  lemma StepCounter(s: State, l: Label, q: Queue, m: Message)
    requires Enabled(s, l) && q in s.queues && Accounted(s.queues[q])
    ensures q in Apply(s, l).queues
    ensures var c, c' := s.queues[q], Apply(s, l).queues[q];
            && (m !in c'.acked ==> m !in c.acked)
            && (m !in c'.acked ==> Get(c'.attempts, m) == Get(c.attempts, m) + if Counts(s, l, q, m) then 1 else 0)
  {
    if !l.Publish? && !l.Inline? {
      if l.q == q {
        OwnCounter(s, l, m);
      } else {
        StepElsewhere(s, l, q);
      }
    }
  }

  /** In every reachable state, the counter of a message not yet acked is the number of its tries. */
  lemma {:induction false} AttemptsAreTries(qs: set<Queue>, ls: seq<Label>, q: Queue, m: Message)
    requires Run(qs, ls).Some? && q in qs
    ensures q in Run(qs, ls).value.queues
    ensures var c := Run(qs, ls).value.queues[q]; m !in c.acked ==> Get(c.attempts, m) == Tries(qs, ls, q, m)
  {
    if ls != [] {
      var n := |ls| - 1;
      var s := Run(qs, ls[..n]).value;
      AttemptsAreTries(qs, ls[..n], q, m);
      RunInv(qs, ls[..n]);
      assert Local(s.queues[q]);
      StepCounter(s, ls[n], q, m);
    }
  }

  lemma InHandIsThere(s: State, q: Queue, m: Message)
    requires Inv(s) && q in s.queues && Busy(s.queues[q].phase) && s.queues[q].phase.m == m
    ensures m !in s.queues[q].acked && (m.key.Some? ==> m.key.value in s.store.payloads)
  {
    var c := s.queues[q];
    assert Local(c) && Known(s.store, q, c) && m in c.processing;
    InHandNotAcked(c, m);
    AckedArrived(c, m);
    if m.key.Some? {
      assert Guarded(s, m.key.value) && Unacked(s, q, m);
    }
  }

  /** A counted message whose payload is there goes to the handler while its counter allows, else to `on_lost`. */
  lemma BeginGoes(s: State, q: Queue, m: Message, n: nat)
    requires q in s.queues && s.queues[q].phase.Counted? && s.queues[q].phase.m == m && Attempted(s.queues[q])
    requires Get(s.queues[q].attempts, m) == n && (m.key.Some? ==> m.key.value in s.store.payloads)
    ensures Apply(s, Begin(q)).queues[q].phase == if n <= MAX_ATTEMPTS then Handling(m) else Losing(m)
  {
  }

  lemma RunOn(qs: set<Queue>, ls: seq<Label>, l: Label)
    requires Run(qs, ls).Some? && Enabled(Run(qs, ls).value, l)
    ensures Run(qs, ls + [l]) == Some(Apply(Run(qs, ls).value, l))
  {
    assert (ls + [l])[..|ls|] == ls;
  }

  /** Where a counted message goes next: to the handler if and only if it has been tried at most MAX_ATTEMPTS
      times, this one included, for its payload is still there; else to `on_lost`. */
  lemma HandledWhileTries(qs: set<Queue>, ls: seq<Label>, q: Queue, m: Message)
    requires Run(qs, ls).Some? && q in qs && q in Run(qs, ls).value.queues
    requires Run(qs, ls).value.queues[q].phase.Counted? && Run(qs, ls).value.queues[q].phase.m == m
    ensures Run(qs, ls + [Begin(q)]).Some? && q in Run(qs, ls + [Begin(q)]).value.queues
    ensures m.key.Some? ==> m.key.value in Run(qs, ls).value.store.payloads
    ensures Run(qs, ls + [Begin(q)]).value.queues[q].phase
            == if Tries(qs, ls, q, m) <= MAX_ATTEMPTS then Handling(m) else Losing(m)
  {
    var s := Run(qs, ls).value;
    RunOn(qs, ls, Begin(q));
    RunInv(qs, ls);
    InHandIsThere(s, q, m);
    AttemptsAreTries(qs, ls, q, m);
    assert Local(s.queues[q]);
    BeginGoes(s, q, m, Tries(qs, ls, q, m));
  }
}
