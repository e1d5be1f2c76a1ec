/** What every interleaving of the result consumers keeps, crashes included. */
module ResultQueueSafety {
  import opened Text
  import opened Sorting
  import opened ResultQueue

  // --- One queue ---

  lemma AckedArrived(c: QueueState, m: Message)
    requires InOrder(c)
    ensures m in c.acked || m in c.processing || m in c.waiting <==> m in c.arrivals
  {
    assert m in c.arrivals <==> m in c.acked + c.processing + c.waiting;
  }

  /** A message in hand or waiting is not acked. */
  lemma InHandNotAcked(c: QueueState, m: Message)
    requires InOrder(c) && (m in c.processing || m in c.waiting)
    ensures m !in c.acked
  {
    var rest := c.processing + c.waiting;
    assert c.acked + rest == c.arrivals;
    assert m in rest;
    var j :| 0 <= j < |rest| && rest[j] == m;
    assert c.arrivals[|c.acked| + j] == m;
    assert forall i :: 0 <= i < |c.acked| ==> c.acked[i] == c.arrivals[i];
  }

  lemma ArriveLocal(c: QueueState, m: Message)
    requires Local(c) && m !in c.arrivals
    ensures Local(Arrive(c, m))
  {
    assert c.acked + c.processing + (c.waiting + [m]) == (c.acked + c.processing + c.waiting) + [m];
  }

  lemma RecoverLocal(c: QueueState)
    requires Local(c) && c.phase.Recovering?
    ensures Local(Recover(c))
  {
    if c.processing != [] {
      var n := |c.processing| - 1;
      assert c.processing == c.processing[..n] + [c.processing[n]];
      assert c.acked + c.processing[..n] + ([c.processing[n]] + c.waiting) == c.acked + c.processing + c.waiting;
    }
  }

  lemma TakeLocal(c: QueueState)
    requires Local(c) && c.phase.Waiting? && c.waiting != []
    ensures Local(TakeNext(c))
  {
    assert c.waiting == [c.waiting[0]] + c.waiting[1..];
    assert c.acked + (c.processing + [c.waiting[0]]) + c.waiting[1..] == c.acked + c.processing + c.waiting;
  }

  lemma CountLocal(c: QueueState)
    requires Local(c) && c.phase.Taken?
    ensures Local(CountAttempt(c))
  {
    InHandNotAcked(c, c.phase.m);
  }

  lemma BeginLocal(c: QueueState, payloads: set<Key>)
    requires Local(c) && c.phase.Counted?
    ensures Local(StartHandling(c, payloads))
  {
    InHandNotAcked(c, c.phase.m);
    var c' := StartHandling(c, payloads);
    if c'.phase.Handling? {
      assert forall m :: Get(c'.starts, m) == if m == c.phase.m then Get(c.starts, m) + 1 else Get(c.starts, m);
    }
  }

  lemma AckLocal(c: QueueState)
    requires Local(c) && c.phase.ToAck?
    ensures Local(AckMessage(c))
  {
    var m := c.phase.m;
    assert c.processing == [m] && Remove([m], m) == [];
    assert (c.acked + [m]) + [] + c.waiting == c.acked + c.processing + c.waiting;
  }

  lemma ClearLocal(c: QueueState)
    requires Local(c) && c.phase.ToClear?
    ensures Local(ClearAttempts(c))
  {
  }

  /** The steps that touch one queue and neither acks nor arrivals. */
  predicate Quiet(l: Label) {
    l.RecoverOne? || l.Take? || l.Count? || l.Begin? || l.Fault? || l.HandlerDone? || l.LostDone?
  }

  lemma QuietLocal(s: State, l: Label)
    requires Quiet(l) && Enabled(s, l) && Local(s.queues[l.q])
    ensures Local(Apply(s, l).queues[l.q])
  {
    var c := s.queues[l.q];
    match l
    case RecoverOne(_) => RecoverLocal(c);
    case Take(_) => TakeLocal(c);
    case Count(_) => CountLocal(c);
    case Begin(_) => BeginLocal(c, s.store.payloads);
    case _ =>
  }

  // --- The payload of one key ---

  /** What a step of one queue may do to a key: its acks grow, an ack goes on to release, and nobody goes back. */
  predicate Moved(c: QueueState, c': QueueState, e: Message, pending: bool, empty: bool) {
    && c'.arrivals == c.arrivals
    && (e in c.acked ==> e in c'.acked)
    && (e in c'.acked && e !in c.acked ==> Releasing(c'.phase, e))
    && (Releasing(c.phase, e) ==> Releasing(c'.phase, e))
    && (Releasing(c'.phase, e) && !Releasing(c.phase, e) ==> e !in c.acked && pending)
    && (Deleting(c'.phase, e) ==> Deleting(c.phase, e))
    && (Deleting(c.phase, e) && empty ==> Deleting(c'.phase, e))
  }

  lemma MovedGuarded(s: State, q: Queue, c: QueueState, k: Key)
    requires q in s.queues && k in s.store.envelope && k in s.store.named && Guarded(s, k)
    requires Moved(s.queues[q], c, s.store.envelope[k], q in PendingOf(s.store, k), PendingOf(s.store, k) == {})
    requires c.phase.ToDelete? && c.phase.m.key == Some(k) ==> PendingOf(s.store, k) == {}
    ensures Guarded(Put(s, q, c), k)
  {
    var s', e := Put(s, q, c), s.store.envelope[k];
    assert forall r :: Unacked(s', r, e) ==> Unacked(s, r, e);
  }

  lemma MovedHeld(s: State, q: Queue, c: QueueState, k: Key)
    requires q in s.queues && k in s.store.envelope && Held(s, k)
    requires Moved(s.queues[q], c, s.store.envelope[k], q in PendingOf(s.store, k), PendingOf(s.store, k) == {})
    ensures Held(Put(s, q, c), k)
  {
  }

  lemma MovedDue(s: State, q: Queue, c: QueueState, k: Key)
    requires q in s.queues && k in s.store.envelope && Due(s, k)
    requires Moved(s.queues[q], c, s.store.envelope[k], q in PendingOf(s.store, k), PendingOf(s.store, k) == {})
    ensures Due(Put(s, q, c), k)
  {
    var s', e := Put(s, q, c), s.store.envelope[k];
    assert forall r :: r != q ==> Unacked(s', r, e) == Unacked(s, r, e);
    if PendingOf(s.store, k) == {} && k in s.store.payloads {
      var r :| r in s.queues && Deleting(s.queues[r].phase, e);
      assert r in s'.queues && Deleting(s'.queues[r].phase, e);
    }
  }

  lemma MovedLeft(s: State, q: Queue, c: QueueState, k: Key)
    requires q in s.queues && k in s.store.envelope && Left(s, k)
    requires Moved(s.queues[q], c, s.store.envelope[k], q in PendingOf(s.store, k), PendingOf(s.store, k) == {})
    ensures Left(Put(s, q, c), k)
  {
    var s', e := Put(s, q, c), s.store.envelope[k];
    if r :| r in PendingOf(s.store, k) && Stuck(s, r, e) {
      assert Stuck(s', r, e);
    }
  }

  /** A step at one queue that leaves the store alone moves a key only by what it does to that queue. */
  lemma OneQueueKey(s: State, q: Queue, c: QueueState, k: Key)
    requires q in s.queues && k in s.store.envelope && k in s.store.named && Guarded(s, k) && Collected(s, k)
    requires Moved(s.queues[q], c, s.store.envelope[k], q in PendingOf(s.store, k), PendingOf(s.store, k) == {})
    requires c.phase.ToDelete? && c.phase.m.key == Some(k) ==> PendingOf(s.store, k) == {}
    ensures Guarded(Put(s, q, c), k) && Collected(Put(s, q, c), k)
  {
    MovedGuarded(s, q, c, k);
    MovedHeld(s, q, c, k);
    if k in s.store.leaked {
      MovedLeft(s, q, c, k);
    } else {
      MovedDue(s, q, c, k);
    }
  }

  lemma InlineKey(s: State, q: Queue, m: Message, k: Key)
    requires Enabled(s, Inline(q, m)) && k in s.store.envelope && k in s.store.named && Guarded(s, k) && Collected(s, k)
    ensures Guarded(Apply(s, Inline(q, m)), k) && Collected(Apply(s, Inline(q, m)), k)
  {
    SamePhases(s, Apply(s, Inline(q, m)), k);
  }

  /** More arrivals, of other messages, move no key. */
  lemma SamePhases(s: State, s': State, k: Key)
    requires k in s.store.envelope && k in s.store.named && Guarded(s, k) && Collected(s, k)
    requires k in s'.store.envelope && k in s'.store.named && s'.queues.Keys == s.queues.Keys
    requires s'.store.envelope[k] == s.store.envelope[k] && s'.store.named[k] == s.store.named[k]
    requires PendingOf(s'.store, k) == PendingOf(s.store, k) && s'.store.leaked == s.store.leaked
    requires k in s'.store.payloads <==> k in s.store.payloads
    requires forall q :: q in s.queues ==> s'.queues[q].phase == s.queues[q].phase && s'.queues[q].acked == s.queues[q].acked
    requires forall q :: q in s.queues ==> (s.store.envelope[k] in s'.queues[q].arrivals <==> s.store.envelope[k] in s.queues[q].arrivals)
    ensures Guarded(s', k) && Collected(s', k)
  {
    var e := s.store.envelope[k];
    assert forall r :: Unacked(s', r, e) == Unacked(s, r, e);
    assert forall r :: Stuck(s', r, e) == Stuck(s, r, e);
  }

  lemma QuietFrame(s: State, l: Label)
    requires Quiet(l) && Enabled(s, l)
    ensures Apply(s, l) == Put(s, l.q, Apply(s, l).queues[l.q])
    ensures var c, c' := s.queues[l.q], Apply(s, l).queues[l.q];
            c'.arrivals == c.arrivals && c'.acked == c.acked && !AfterAck(c.phase) && !AfterAck(c'.phase)
  {
  }

  lemma QuietKey(s: State, l: Label, k: Key)
    requires Quiet(l) && Enabled(s, l) && k in s.store.envelope && k in s.store.named && Guarded(s, k) && Collected(s, k)
    ensures Guarded(Apply(s, l), k) && Collected(Apply(s, l), k)
  {
    QuietFrame(s, l);
    OneQueueKey(s, l.q, Apply(s, l).queues[l.q], k);
  }

  lemma AckKey(s: State, q: Queue, k: Key)
    requires k in s.store.envelope && k in s.store.named && Guarded(s, k) && Collected(s, k)
    requires Enabled(s, Ack(q)) && Local(s.queues[q]) && Known(s.store, q, s.queues[q])
    ensures Guarded(Apply(s, Ack(q)), k) && Collected(Apply(s, Ack(q)), k)
  {
    InHandNotAcked(s.queues[q], s.queues[q].phase.m);
    AckedArrived(s.queues[q], s.queues[q].phase.m);
    assert s.queues[q].phase.m == s.store.envelope[k] ==> Unacked(s, q, s.store.envelope[k]) && q in s.store.named[k];
    OneQueueKey(s, q, AckMessage(s.queues[q]), k);
  }

  lemma ClearKey(s: State, q: Queue, k: Key)
    requires k in s.store.envelope && k in s.store.named && Guarded(s, k) && Collected(s, k)
    requires Enabled(s, Clear(q)) && Local(s.queues[q])
    ensures Guarded(Apply(s, Clear(q)), k) && Collected(Apply(s, Clear(q)), k)
  {
    OneQueueKey(s, q, ClearAttempts(s.queues[q]), k);
  }

  lemma CheckKey(s: State, q: Queue, k: Key)
    requires k in s.store.envelope && k in s.store.named && Guarded(s, k) && Collected(s, k)
    requires Enabled(s, Check(q))
    ensures Guarded(Apply(s, Check(q)), k) && Collected(Apply(s, Check(q)), k)
  {
    OneQueueKey(s, q, Apply(s, Check(q)).queues[q], k);
  }

  /** A keyed message its consumer acked is the envelope of its key. */
  lemma AckedIsEnvelope(s: State, q: Queue, m: Message)
    requires q in s.queues && Local(s.queues[q]) && Known(s.store, q, s.queues[q]) && m in s.queues[q].acked && m.key.Some?
    ensures m.key.value in s.store.envelope && s.store.envelope[m.key.value] == m
    ensures !Unacked(s, q, m)
  {
    AckedArrived(s.queues[q], m);
  }

  /** A consumer past its ack holds the envelope of its key. */
  lemma PastAckIsEnvelope(s: State, q: Queue, k: Key)
    requires q in s.queues && Local(s.queues[q]) && Known(s.store, q, s.queues[q])
    requires AfterAck(s.queues[q].phase) && s.queues[q].phase.m.key == Some(k)
    ensures k in s.store.envelope && s.store.envelope[k] == s.queues[q].phase.m && s.store.envelope[k] in s.queues[q].acked
  {
    AckedIsEnvelope(s, q, s.queues[q].phase.m);
  }

  lemma ReleaseOwnGuarded(s: State, q: Queue, k: Key)
    requires k in s.store.envelope && k in s.store.named && Guarded(s, k)
    requires Enabled(s, Release(q)) && s.queues[q].phase.m == s.store.envelope[k] && s.store.envelope[k] in s.queues[q].acked
    ensures Guarded(Apply(s, Release(q)), k)
  {
    var s' := Apply(s, Release(q));
    var e := s.store.envelope[k];
    assert forall r :: Unacked(s', r, e) == Unacked(s, r, e);
    assert PendingOf(s'.store, k) == PendingOf(s.store, k) - {q};
  }

  lemma ReleaseOwnCollected(s: State, q: Queue, k: Key)
    requires k in s.store.envelope && k in s.store.named && s.store.envelope[k].key == Some(k) && Collected(s, k)
    requires Enabled(s, Release(q)) && s.queues[q].phase.m == s.store.envelope[k]
    ensures Collected(Apply(s, Release(q)), k)
  {
    var s', e := Apply(s, Release(q)), s.store.envelope[k];
    assert PendingOf(s'.store, k) == PendingOf(s.store, k) - {q} && q in PendingOf(s.store, k);
    assert q in s'.queues && Deleting(s'.queues[q].phase, e);
    assert forall r :: r in s.queues && r != q ==> s'.queues[r] == s.queues[r];
    assert Held(s', k);
    if k in s.store.leaked {
      var r :| r in PendingOf(s.store, k) && Stuck(s, r, e);
      assert r != q && Stuck(s', r, e);
    } else {
      assert forall r :: Unacked(s', r, e) == Unacked(s, r, e);
    }
  }

  /** A store change at another key does not touch this one. */
  lemma OtherStoreKey(s: State, store: Store, k: Key)
    requires k in s.store.envelope && k in s.store.named && Guarded(s, k) && Collected(s, k)
    requires store.envelope == s.store.envelope && store.named == s.store.named
    requires PendingOf(store, k) == PendingOf(s.store, k)
    requires k in store.payloads <==> k in s.store.payloads
    requires k in store.leaked <==> k in s.store.leaked
    ensures Guarded(s.(store := store), k) && Collected(s.(store := store), k)
  {
    var s' := s.(store := store);
    var e := s.store.envelope[k];
    assert forall r :: Unacked(s', r, e) == Unacked(s, r, e);
    assert forall r :: Stuck(s', r, e) == Stuck(s, r, e);
  }

  /** A consumer not at work on this key moves on, and the store changes at another. */
  lemma ElsewhereKey(s: State, q: Queue, c: QueueState, store: Store, k: Key)
    requires q in s.queues && k in s.store.envelope && k in s.store.named && Guarded(s, k) && Collected(s, k)
    requires c == s.queues[q].(phase := c.phase) && !Touches(s.queues[q].phase, k) && !Touches(c.phase, k)
    requires store.envelope == s.store.envelope && store.named == s.store.named && PendingOf(store, k) == PendingOf(s.store, k)
    requires (k in store.payloads <==> k in s.store.payloads) && (k in store.leaked <==> k in s.store.leaked)
    ensures Guarded(State(s.queues[q := c], store), k) && Collected(State(s.queues[q := c], store), k)
  {
    OneQueueKey(s, q, c, k);
    OtherStoreKey(Put(s, q, c), store, k);
    assert Put(s, q, c).(store := store) == State(s.queues[q := c], store);
  }

  /** The phase is past the ack of a message with this key. */
  predicate Touches(p: Phase, k: Key) {
    AfterAck(p) && p.m.key == Some(k)
  }

  lemma ReleaseStep(s: State, q: Queue, k: Key)
    requires k in s.store.envelope && k in s.store.named && Guarded(s, k) && Collected(s, k)
    requires Enabled(s, Release(q)) && Local(s.queues[q]) && Known(s.store, q, s.queues[q])
    ensures Guarded(Apply(s, Release(q)), k) && Collected(Apply(s, Release(q)), k)
  {
    var m := s.queues[q].phase.m;
    PastAckIsEnvelope(s, q, m.key.value);
    if m.key == Some(k) {
      ReleaseOwnGuarded(s, q, k);
      ReleaseOwnCollected(s, q, k);
    } else {
      ElsewhereKey(s, q, s.queues[q].(phase := ToCheck(m)), ReleaseKey(s.store, m.key.value, q), k);
    }
  }

  lemma DeleteOwn(s: State, q: Queue, k: Key)
    requires k in s.store.envelope && k in s.store.named && Guarded(s, k) && Collected(s, k)
    requires Enabled(s, Delete(q)) && s.queues[q].phase.m == s.store.envelope[k]
    ensures Guarded(Apply(s, Delete(q)), k) && Collected(Apply(s, Delete(q)), k)
  {
    var s', e := Apply(s, Delete(q)), s.store.envelope[k];
    assert Deleting(s.queues[q].phase, e);
    assert PendingOf(s'.store, k) == {} && PendingOf(s.store, k) == {};
    assert k !in s.store.leaked;
    assert forall r :: Unacked(s', r, e) == Unacked(s, r, e);
    assert forall r :: r in s.queues && r != q ==> s'.queues[r] == s.queues[r];
  }

  lemma DeleteStep(s: State, q: Queue, k: Key)
    requires k in s.store.envelope && k in s.store.named && Guarded(s, k) && Collected(s, k)
    requires Enabled(s, Delete(q)) && Local(s.queues[q]) && Known(s.store, q, s.queues[q])
    ensures Guarded(Apply(s, Delete(q)), k) && Collected(Apply(s, Delete(q)), k)
  {
    var m := s.queues[q].phase.m;
    PastAckIsEnvelope(s, q, m.key.value);
    if m.key == Some(k) {
      DeleteOwn(s, q, k);
    } else {
      ElsewhereKey(s, q, s.queues[q].(phase := Waiting), DeleteKey(s.store, m.key.value), k);
    }
  }

  /** A consumer crashes past its ack of this key's envelope. */
  lemma CrashOwn(s: State, q: Queue, k: Key)
    requires k in s.store.envelope && k in s.store.named && Guarded(s, k) && Collected(s, k) && q in s.queues
    requires AfterAck(s.queues[q].phase) && s.queues[q].phase.m == s.store.envelope[k] && s.store.envelope[k] in s.queues[q].acked
    ensures Guarded(Apply(s, Crash(q)), k) && Collected(Apply(s, Crash(q)), k)
  {
    CrashKeeps(s, q, k);
    if k in Apply(s, Crash(q)).store.leaked {
      CrashLeft(s, q, k);
    } else {
      CrashDue(s, q, k);
    }
  }

  lemma CrashKeeps(s: State, q: Queue, k: Key)
    requires k in s.store.envelope && k in s.store.named && Guarded(s, k) && Held(s, k) && q in s.queues
    ensures Guarded(Apply(s, Crash(q)), k) && Held(Apply(s, Crash(q)), k)
  {
    var s', e := Apply(s, Crash(q)), s.store.envelope[k];
    assert forall r :: Unacked(s', r, e) == Unacked(s, r, e);
    assert forall r :: r in s.queues && r != q ==> s'.queues[r] == s.queues[r];
  }

  lemma CrashLeft(s: State, q: Queue, k: Key)
    requires k in s.store.envelope && s.store.envelope[k].key == Some(k) && Held(s, k) && q in s.queues
    requires AfterAck(s.queues[q].phase) && s.queues[q].phase.m == s.store.envelope[k] && s.store.envelope[k] in s.queues[q].acked
    requires k in s.store.leaked ==> Left(s, k)
    requires k in Apply(s, Crash(q)).store.leaked
    ensures Left(Apply(s, Crash(q)), k)
  {
    var s', e := Apply(s, Crash(q)), s.store.envelope[k];
    if Releasing(s.queues[q].phase, e) {
      assert q in PendingOf(s'.store, k) && Stuck(s', q, e);
    } else if k in s.store.leaked && PendingOf(s.store, k) != {} {
      var r :| r in PendingOf(s.store, k) && Stuck(s, r, e);
      assert Stuck(s', r, e);
    }
  }

  lemma CrashDue(s: State, q: Queue, k: Key)
    requires k in s.store.envelope && s.store.envelope[k].key == Some(k) && Held(s, k) && Due(s, k) && q in s.queues
    requires AfterAck(s.queues[q].phase) && s.queues[q].phase.m == s.store.envelope[k]
    requires k !in Apply(s, Crash(q)).store.leaked
    ensures Due(Apply(s, Crash(q)), k)
  {
    var s', e := Apply(s, Crash(q)), s.store.envelope[k];
    assert !Leaks(s, q) && Deleting(s.queues[q].phase, e);
    assert forall r :: r != q ==> Unacked(s', r, e) == Unacked(s, r, e);
    if PendingOf(s.store, k) == {} && k in s.store.payloads {
      var r :| r in s.queues && r != q && Deleting(s.queues[r].phase, e);
      assert r in s'.queues && Deleting(s'.queues[r].phase, e);
    }
  }

  /** A crash elsewhere, or on another key, moves this one no more than any step of that queue. */
  lemma CrashOther(s: State, q: Queue, k: Key)
    requires k in s.store.envelope && k in s.store.named && Guarded(s, k) && Collected(s, k) && q in s.queues
    requires AfterAck(s.queues[q].phase) ==> s.queues[q].phase.m.key != Some(k)
    ensures Guarded(Apply(s, Crash(q)), k) && Collected(Apply(s, Crash(q)), k)
  {
    ElsewhereKey(s, q, s.queues[q].(phase := Recovering), Abandon(s, q), k);
  }

  lemma CrashStep(s: State, q: Queue, k: Key)
    requires k in s.store.envelope && k in s.store.named && Guarded(s, k) && Collected(s, k) && Enabled(s, Crash(q))
    requires Local(s.queues[q]) && Known(s.store, q, s.queues[q])
    ensures Guarded(Apply(s, Crash(q)), k) && Collected(Apply(s, Crash(q)), k)
  {
    var p := s.queues[q].phase;
    if AfterAck(p) && p.m.key == Some(k) {
      PastAckIsEnvelope(s, q, k);
      CrashOwn(s, q, k);
    } else {
      CrashOther(s, q, k);
    }
  }

  /** Nobody is past an ack of a message not yet stored. */
  lemma NobodyPast(s: State, k: Key, q: Queue)
    requires k !in s.store.envelope && q in s.queues && Local(s.queues[q]) && Known(s.store, q, s.queues[q])
    ensures AfterAck(s.queues[q].phase) ==> s.queues[q].phase.m.key != Some(k)
  {
    if AfterAck(s.queues[q].phase) && s.queues[q].phase.m.key == Some(k) {
      PastAckIsEnvelope(s, q, k);
    }
  }

  /** A payload just stored: every queue it names has it to come. */
  lemma NewKey(s: State, m: Message, names: set<Queue>, k: Key)
    requires Enabled(s, Publish(m, names)) && m.key == Some(k) && k !in s.store.leaked
    requires forall q :: q in names ==> m !in s.queues[q].acked
    requires forall q :: q in s.queues && AfterAck(s.queues[q].phase) ==> s.queues[q].phase.m.key != Some(k)
    ensures Guarded(Apply(s, Publish(m, names)), k) && Collected(Apply(s, Publish(m, names)), k)
  {
    var s' := Apply(s, Publish(m, names));
    assert forall q :: q in names ==> Unacked(s', q, m);
    assert forall q :: q in s.queues ==> s'.queues[q].phase == s.queues[q].phase;
    assert PendingOf(s'.store, k) == names;
  }

  lemma PublishOwn(s: State, m: Message, names: set<Queue>, k: Key)
    requires Inv(s) && Enabled(s, Publish(m, names)) && m.key == Some(k)
    ensures Guarded(Apply(s, Publish(m, names)), k) && Collected(Apply(s, Publish(m, names)), k)
  {
    forall q | q in names ensures m !in s.queues[q].acked {
      assert Local(s.queues[q]);
      AckedArrived(s.queues[q], m);
    }
    forall q | q in s.queues && AfterAck(s.queues[q].phase) ensures s.queues[q].phase.m.key != Some(k) {
      NobodyPast(s, k, q);
    }
    NewKey(s, m, names, k);
  }

  lemma PublishOther(s: State, m: Message, names: set<Queue>, k: Key)
    requires k in s.store.envelope && k in s.store.named && Guarded(s, k) && Collected(s, k)
    requires Enabled(s, Publish(m, names))
    ensures Guarded(Apply(s, Publish(m, names)), k) && Collected(Apply(s, Publish(m, names)), k)
  {
    SamePhases(s, Apply(s, Publish(m, names)), k);
  }

  // --- Every run ---

  /** The steps after the ack, and a crash, change only the phase of their queue. */
  lemma LetGoLocal(s: State, l: Label)
    requires (l.Release? || l.Check? || l.Delete? || l.Crash?) && Enabled(s, l) && Local(s.queues[l.q])
    ensures Local(Apply(s, l).queues[l.q])
  {
    var c, c' := s.queues[l.q], Apply(s, l).queues[l.q];
    assert c' == c.(phase := c'.phase);
    assert InOrder(c') && Attempted(c') && Accounted(c');
  }

  lemma OwnLocal(s: State, l: Label)
    requires !l.Publish? && !l.Inline? && Enabled(s, l) && Local(s.queues[l.q])
    ensures Local(Apply(s, l).queues[l.q])
  {
    match l
    case Ack(q) => AckLocal(s.queues[q]);
    case Clear(q) => ClearLocal(s.queues[q]);
    case Release(_) => LetGoLocal(s, l);
    case Check(_) => LetGoLocal(s, l);
    case Delete(_) => LetGoLocal(s, l);
    case Crash(_) => LetGoLocal(s, l);
    case _ => QuietLocal(s, l);
  }

  lemma StepElsewhere(s: State, l: Label, q: Queue)
    requires Enabled(s, l) && q in s.queues && !l.Publish? && l.q != q
    ensures q in Apply(s, l).queues && Apply(s, l).queues[q] == s.queues[q]
  {
  }

  lemma StepLocal(s: State, l: Label, q: Queue)
    requires Enabled(s, l) && q in s.queues && Local(s.queues[q])
    ensures q in Apply(s, l).queues && Local(Apply(s, l).queues[q])
  {
    match l
    case Publish(m, names) => if q in names { ArriveLocal(s.queues[q], m); }
    case Inline(r, m) => if q == r { ArriveLocal(s.queues[q], m); }
    case _ => if q == l.q { OwnLocal(s, l); } else { StepElsewhere(s, l, q); }
  }

  /** No step takes back an arrival, and only `Publish` and `Inline` add one. */
  lemma StepKnown(s: State, l: Label, q: Queue)
    requires Enabled(s, l) && q in s.queues && Known(s.store, q, s.queues[q])
    requires s.store.envelope.Keys == s.store.named.Keys
    ensures Known(Apply(s, l).store, q, Apply(s, l).queues[q])
  {
    var s' := Apply(s, l);
    match l
    case Publish(m, names) => assert forall x :: x in s'.queues[q].arrivals ==> x in s.queues[q].arrivals || (q in names && x == m);
    case Inline(r, m) => assert forall x :: x in s'.queues[q].arrivals ==> x in s.queues[q].arrivals || x == m;
    case _ => StepArrivals(s, l, q);
  }

  lemma StepArrivals(s: State, l: Label, q: Queue)
    requires Enabled(s, l) && q in s.queues && !l.Publish? && !l.Inline?
    ensures Apply(s, l).queues[q].arrivals == s.queues[q].arrivals
    ensures Apply(s, l).store.envelope == s.store.envelope && Apply(s, l).store.named == s.store.named
  {
  }

  lemma StepKey(s: State, l: Label, k: Key)
    requires Inv(s) && Enabled(s, l) && k in Apply(s, l).store.envelope
    ensures k in Apply(s, l).store.named && Guarded(Apply(s, l), k) && Collected(Apply(s, l), k)
  {
    if l.Publish? && l.m.key == Some(k) {
      PublishOwn(s, l.m, l.names, k);
    } else {
      OldKey(s, l, k);
      StepOldKey(s, l, k);
    }
  }

  /** Only a `Publish` stores a new key. */
  lemma OldKey(s: State, l: Label, k: Key)
    requires Enabled(s, l) && k in Apply(s, l).store.envelope && !(l.Publish? && l.m.key == Some(k))
    ensures k in s.store.envelope
  {
  }

  /** The steps after a handler: ack, clear, release, check, delete. */
  predicate Settling(l: Label) {
    l.Ack? || l.Clear? || l.Release? || l.Check? || l.Delete?
  }

  lemma SettlingKey(s: State, l: Label, k: Key)
    requires Settling(l) && Enabled(s, l) && k in s.store.envelope && k in s.store.named && Guarded(s, k) && Collected(s, k)
    requires Local(s.queues[l.q]) && Known(s.store, l.q, s.queues[l.q])
    ensures k in Apply(s, l).store.envelope && k in Apply(s, l).store.named && Guarded(Apply(s, l), k) && Collected(Apply(s, l), k)
  {
    match l
    case Ack(q) => AckKey(s, q, k);
    case Clear(q) => ClearKey(s, q, k);
    case Release(q) => ReleaseStep(s, q, k);
    case Check(q) => CheckKey(s, q, k);
    case Delete(q) => DeleteStep(s, q, k);
  }

  lemma StepOldKey(s: State, l: Label, k: Key)
    requires Enabled(s, l) && k in s.store.envelope && k in s.store.named && Guarded(s, k) && Collected(s, k)
    requires forall q :: q in s.queues ==> Local(s.queues[q]) && Known(s.store, q, s.queues[q])
    ensures k in Apply(s, l).store.envelope && k in Apply(s, l).store.named && Guarded(Apply(s, l), k) && Collected(Apply(s, l), k)
  {
    if Quiet(l) {
      QuietKey(s, l, k);
      QuietFrame(s, l);
    } else if Settling(l) {
      SettlingKey(s, l, k);
    } else {
      OutsideKey(s, l, k);
    }
  }

  /** New messages, and crashes. */
  lemma OutsideKey(s: State, l: Label, k: Key)
    requires (l.Publish? || l.Inline? || l.Crash?) && Enabled(s, l)
    requires k in s.store.envelope && k in s.store.named && Guarded(s, k) && Collected(s, k)
    requires l.Crash? ==> Local(s.queues[l.q]) && Known(s.store, l.q, s.queues[l.q])
    ensures k in Apply(s, l).store.envelope && k in Apply(s, l).store.named && Guarded(Apply(s, l), k) && Collected(Apply(s, l), k)
  {
    match l
    case Publish(m, names) => PublishOther(s, m, names, k);
    case Inline(q, m) => InlineKey(s, q, m, k);
    case Crash(q) => CrashStep(s, q, k);
  }

  lemma StepKeys(s: State, l: Label)
    requires Enabled(s, l)
    ensures Apply(s, l).queues.Keys == s.queues.Keys
    ensures s.store.envelope.Keys == s.store.named.Keys ==> Apply(s, l).store.envelope.Keys == Apply(s, l).store.named.Keys
  {
  }

  /** Only what was stored can leak. */
  lemma StepLeaked(s: State, l: Label)
    requires Inv(s) && Enabled(s, l)
    ensures Apply(s, l).store.leaked <= Apply(s, l).store.envelope.Keys
  {
    if l.Crash? && Leaks(s, l.q) {
      assert Local(s.queues[l.q]) && Known(s.store, l.q, s.queues[l.q]);
      PastAckIsEnvelope(s, l.q, s.queues[l.q].phase.m.key.value);
    } else {
      SameLeaked(s, l);
    }
  }

  lemma SameLeaked(s: State, l: Label)
    requires Enabled(s, l) && (l.Crash? ==> !Leaks(s, l.q))
    ensures Apply(s, l).store.leaked == s.store.leaked && s.store.envelope.Keys <= Apply(s, l).store.envelope.Keys
  {
  }

  /** The step is a crash that leaks the payload of `k`. */
  predicate LeaksKey(s: State, l: Label, k: Key)
    requires Enabled(s, l)
  {
    l.Crash? && Leaks(s, l.q) && s.queues[l.q].phase.m.key == Some(k)
  }

  lemma LeakStep(s: State, l: Label, k: Key)
    requires Enabled(s, l)
    ensures k in Apply(s, l).store.leaked <==> k in s.store.leaked || LeaksKey(s, l, k)
  {
    if !(l.Crash? && Leaks(s, l.q)) {
      SameLeaked(s, l);
    }
  }

  lemma InvStep(s: State, l: Label)
    requires Inv(s) && Enabled(s, l)
    ensures Inv(Apply(s, l))
  {
    StepKeys(s, l);
    StepLeaked(s, l);
    forall q | q in s.queues ensures Local(Apply(s, l).queues[q]) && Known(Apply(s, l).store, q, Apply(s, l).queues[q]) {
      StepLocal(s, l, q);
      StepKnown(s, l, q);
    }
    forall k | k in Apply(s, l).store.envelope ensures Guarded(Apply(s, l), k) && Collected(Apply(s, l), k) {
      StepKey(s, l, k);
    }
  }

  lemma {:induction false} RunInv(qs: set<Queue>, ls: seq<Label>)
    requires Run(qs, ls).Some?
    ensures Inv(Run(qs, ls).value)
  {
    if ls != [] {
      var n := |ls| - 1;
      RunInv(qs, ls[..n]);
      InvStep(Run(qs, ls[..n]).value, ls[n]);
    }
  }

  // --- What that means ---

  /** Per queue, across any crashes and recoveries: what was acked, is in hand and waits is what arrived, in
      order; an acked delivery ran the handler or `on_lost`; no handler starts more than MAX_ATTEMPTS times. */
  lemma NothingLostOrReordered(qs: set<Queue>, ls: seq<Label>, q: Queue)
    requires Run(qs, ls).Some? && q in Run(qs, ls).value.queues
    ensures var c := Run(qs, ls).value.queues[q];
            && c.acked + c.processing + c.waiting == c.arrivals
            && Distinct(c.arrivals)
            && (forall m :: m in c.acked ==> m in c.ran)
            && forall m :: Get(c.starts, m) <= MAX_ATTEMPTS
  {
    RunInv(qs, ls);
    assert Local(Run(qs, ls).value.queues[q]);
  }

  /** A payload is never gone while a queue it was stored for has not acked its envelope. */
  lemma PayloadOutlivesReaders(qs: set<Queue>, ls: seq<Label>, k: Key, q: Queue)
    requires Run(qs, ls).Some?
    requires var st := Run(qs, ls).value.store; k in st.envelope && k in st.named && q in st.named[k]
    ensures var s := Run(qs, ls).value;
            && q in s.queues && s.store.envelope[k] in s.queues[q].arrivals
            && (s.store.envelope[k] !in s.queues[q].acked ==> k in s.store.payloads && q in PendingOf(s.store, k))
  {
    RunInv(qs, ls);
    var s := Run(qs, ls).value;
    assert Guarded(s, k);
    assert s.store.envelope[k] !in s.queues[q].acked ==> Unacked(s, q, s.store.envelope[k]);
  }

  /** Every queue the payload was stored for has acked its envelope, and no consumer is still letting go of it. */
  ghost predicate Settled(s: State, k: Key)
    requires k in s.store.envelope && k in s.store.named
  {
    && (forall q :: q in s.store.named[k] ==> q in s.queues && s.store.envelope[k] in s.queues[q].acked)
    && (forall q :: q in s.queues && AfterAck(s.queues[q].phase) ==> s.queues[q].phase.m != s.store.envelope[k])
  }

  lemma SettledKeeps(s: State, k: Key)
    requires k in s.store.envelope && k in s.store.named
    requires Guarded(s, k) && Collected(s, k) && Settled(s, k)
    ensures k in s.store.payloads <==> k in s.store.leaked
    ensures k !in s.store.leaked ==> PendingOf(s.store, k) == {}
  {
    var e := s.store.envelope[k];
    assert forall q :: q in s.store.named[k] ==> !Unacked(s, q, e);
    assert forall q :: q in s.queues ==> !Releasing(s.queues[q].phase, e) && !Deleting(s.queues[q].phase, e);
    assert forall q :: q in PendingOf(s.store, k) ==> q in s.store.named[k];
  }

  /** Once all its queues have acked a payload and let go of it, it is still there if and only if some crash
      leaked it, in the sense of `Leaks`; and what leaked stays. */
  lemma PayloadIsCollected(qs: set<Queue>, ls: seq<Label>, k: Key)
    requires Run(qs, ls).Some?
    requires var st := Run(qs, ls).value.store; k in st.envelope && k in st.named
    ensures var s := Run(qs, ls).value;
            && (Settled(s, k) ==> (k in s.store.payloads <==> k in s.store.leaked))
            && (Settled(s, k) && k !in s.store.leaked ==> PendingOf(s.store, k) == {})
            && (k in s.store.leaked ==> k in s.store.payloads)
  {
    RunInv(qs, ls);
    var s := Run(qs, ls).value;
    assert Guarded(s, k) && Collected(s, k);
    if Settled(s, k) {
      SettledKeeps(s, k);
    }
  }

  /** Step `i` of the run is a crash that leaked the payload of `k`. */
  ghost predicate LeakedAt(qs: set<Queue>, ls: seq<Label>, i: nat, k: Key)
    requires i < |ls|
  {
    Run(qs, ls[..i]).Some? && Enabled(Run(qs, ls[..i]).value, ls[i]) && LeaksKey(Run(qs, ls[..i]).value, ls[i], k)
  }

  lemma LeakedFrame(qs: set<Queue>, ls: seq<Label>, i: nat, k: Key)
    requires i < |ls| - 1
    ensures LeakedAt(qs, ls[..|ls| - 1], i, k) == LeakedAt(qs, ls, i, k)
  {
    assert ls[..|ls| - 1][..i] == ls[..i];
  }

  /** Which crashes those are: what leaked is exactly what some crash of the run leaked. */
  lemma {:induction false} LeakedMeans(qs: set<Queue>, ls: seq<Label>, k: Key)
    requires Run(qs, ls).Some?
    ensures k in Run(qs, ls).value.store.leaked <==> exists i: nat :: i < |ls| && LeakedAt(qs, ls, i, k)
  {
    if ls != [] {
      var n := |ls| - 1;
      LeakedMeans(qs, ls[..n], k);
      LeakStep(Run(qs, ls[..n]).value, ls[n], k);
      forall i: nat | i < n ensures LeakedAt(qs, ls[..n], i, k) == LeakedAt(qs, ls, i, k) {
        LeakedFrame(qs, ls, i, k);
      }
      assert LeakedAt(qs, ls, n, k) == LeaksKey(Run(qs, ls[..n]).value, ls[n], k);
    }
  }
}
