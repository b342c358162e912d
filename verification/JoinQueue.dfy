// The expiry loop looks only at a prefix of the queue, and does what a scan of every record would do.

module JoinQueue {
  import opened JoinState
  import opened JoinSteps
  import opened JoinInvariants

  ghost function ExpireAll(etw: map<nat, EtwObj>, nowMs: nat): map<nat, EtwObj> {
    map k | k in etw :: Expire(etw[k], nowMs)
  }

  ghost function AllTimedOut(etw: map<nat, EtwObj>, nowMs: nat): set<nat> {
    set k | k in etw && TimedOut(etw[k], nowMs)
  }

  ghost function NextTick(s: State, env: Issued, nowMs: nat): Issued {
    env.(nowMs := nowMs, expired := env.expired + AllTimedOut(s.etw, nowMs))
  }

  // What the loop relies on: the queue covers the pending records and is sorted on them.
  ghost predicate Covers(s: State, nowMs: nat) {
    && NoRepeats(s.ix.pendingQ) && QueueSorted(s)
    && forall k | IsPending(s, k) ::
         k in s.ix.pendingQ && s.etw[k].boundId == 0 && s.etw[k].pendingSince <= WaitStamp(nowMs)
  }

  lemma DequeueCovers(s: State, nowMs: nat)
    requires Covers(s, nowMs) && s.ix.pendingQ != [] && !IsPending(s, s.ix.pendingQ[0])
    ensures Covers(Dequeue(s), nowMs)
  {
    var t := Dequeue(s);
    forall k ensures IsPending(t, k) <==> IsPending(s, k) {}
    assert forall i | 0 <= i < |t.ix.pendingQ| :: t.ix.pendingQ[i] == s.ix.pendingQ[i + 1];
    forall k | IsPending(t, k) ensures k in t.ix.pendingQ {
      assert k in s.ix.pendingQ;
    }
  }

  lemma ExpireFirstCovers(s: State, nowMs: nat)
    requires Covers(s, nowMs) && s.ix.pendingQ != [] && s.ix.pendingQ[0] in s.etw
    ensures Covers(ExpireFirst(s), nowMs)
  {
    var t := ExpireFirst(s);
    forall k ensures IsPending(t, k) <==> IsPending(s, k) && k != s.ix.pendingQ[0] {}
  }

  lemma ExpireFirstScans(s: State, nowMs: nat)
    requires s.ix.pendingQ != [] && s.ix.pendingQ[0] in s.etw && TimedOut(s.etw[s.ix.pendingQ[0]], nowMs)
    ensures var u := ExpireFirst(s);
            ExpireAll(u.etw, nowMs) == ExpireAll(s.etw, nowMs) &&
            |AllTimedOut(s.etw, nowMs)| == |AllTimedOut(u.etw, nowMs)| + 1
  {
    var key := s.ix.pendingQ[0];
    assert AllTimedOut(s.etw, nowMs) == AllTimedOut(ExpireFirst(s).etw, nowMs) + {key};
  }

  // The early break misses nothing, and nothing is counted twice.
  lemma {:induction false} ExpireQueueScansAll(s: State, nowMs: nat)
    requires Covers(s, nowMs)
    ensures var t := ExpireQueue(s, nowMs);
            && t.etw == ExpireAll(s.etw, nowMs)
            && t.stats == s.stats.(pendingExpired := s.stats.pendingExpired + |AllTimedOut(s.etw, nowMs)|)
            && Covers(t, nowMs)
    decreases |s.ix.pendingQ|
  {
    hide Covers, ExpireAll, AllTimedOut, Dequeue, ExpireFirst;
    var q := s.ix.pendingQ;
    DequeueFields(s);
    if q != [] && Stale(s, q[0]) {
      StaleNotPending(s, nowMs);
      DequeueCovers(s, nowMs);
      ExpireQueueScansAll(Dequeue(s), nowMs);
    } else if q != [] && Waited(nowMs, s.etw[q[0]].pendingSince) >= PENDING_TIMEOUT_MS {
      ExpireFirstScans(s, nowMs);
      ExpireFirstCovers(s, nowMs);
      var u := ExpireFirst(s);
      ExpireFirstFields(s);
      DequeueFields(u);
      DequeueCovers(u, nowMs);
      ExpireQueueScansAll(Dequeue(u), nowMs);
    } else {
      NothingTimedOut(s, nowMs);
    }
  }

  lemma DequeueFields(s: State)
    ensures s.ix.pendingQ != [] ==>
              var t := Dequeue(s);
              t.etw == s.etw && t.stats == s.stats && t.ix.pendingQ == s.ix.pendingQ[1..]
  {
  }

  lemma ExpireFirstFields(s: State)
    requires s.ix.pendingQ != [] && s.ix.pendingQ[0] in s.etw
    ensures var t := ExpireFirst(s);
            && t.stats == s.stats.(pendingExpired := s.stats.pendingExpired + 1)
            && t.ix == s.ix && !IsPending(t, s.ix.pendingQ[0])
  {
  }

  lemma StaleNotPending(s: State, nowMs: nat)
    requires Covers(s, nowMs) && s.ix.pendingQ != [] && Stale(s, s.ix.pendingQ[0])
    ensures !IsPending(s, s.ix.pendingQ[0])
  {
  }

  // t is s but for the records, their statistics and a prefix of the queue.
  ghost predicate QueueTail(s: State, t: State) {
    && t == s.(etw := t.etw, ix := s.ix.(pendingQ := t.ix.pendingQ), stats := t.stats)
    && |t.ix.pendingQ| <= |s.ix.pendingQ|
    && t.ix.pendingQ == s.ix.pendingQ[|s.ix.pendingQ| - |t.ix.pendingQ|..]
  }

  lemma QueueTailTrans(s: State, t: State, u: State)
    requires QueueTail(s, t) && QueueTail(t, u)
    ensures QueueTail(s, u)
  {
  }

  lemma DequeueTail(s: State)
    requires s.ix.pendingQ != []
    ensures QueueTail(s, Dequeue(s))
    ensures s.ix.pendingQ[0] in s.etw ==> QueueTail(s, Dequeue(ExpireFirst(s)))
  {
  }

  // What the loop leaves alone.
  lemma {:induction false} ExpireQueueFrame(s: State, nowMs: nat)
    ensures QueueTail(s, ExpireQueue(s, nowMs))
    decreases |s.ix.pendingQ|
  {
    var q := s.ix.pendingQ;
    if q != [] {
      DequeueTail(s);
      hide QueueTail;
      if Stale(s, q[0]) {
        ExpireQueueFrame(Dequeue(s), nowMs);
        QueueTailTrans(s, Dequeue(s), ExpireQueue(s, nowMs));
      } else if Waited(nowMs, s.etw[q[0]].pendingSince) >= PENDING_TIMEOUT_MS {
        ExpireQueueFrame(Dequeue(ExpireFirst(s)), nowMs);
        QueueTailTrans(s, Dequeue(ExpireFirst(s)), ExpireQueue(s, nowMs));
      }
    }
  }

  // If the first key still waits, so does every other.
  lemma NothingTimedOut(s: State, nowMs: nat)
    requires Covers(s, nowMs)
    requires s.ix.pendingQ != [] ==> !Stale(s, s.ix.pendingQ[0]) &&
                                     Waited(nowMs, s.etw[s.ix.pendingQ[0]].pendingSince) < PENDING_TIMEOUT_MS
    ensures ExpireAll(s.etw, nowMs) == s.etw && AllTimedOut(s.etw, nowMs) == {}
  {
    forall k | k in s.etw ensures !TimedOut(s.etw[k], nowMs) {
      if IsPending(s, k) {
        var j :| 0 <= j < |s.ix.pendingQ| && s.ix.pendingQ[j] == k;
        assert s.etw[s.ix.pendingQ[0]].pendingSince <= s.etw[s.ix.pendingQ[j]].pendingSince;
      }
    }
  }

  // After a tick no record has waited for the timeout or longer.
  lemma NoneLeftTimedOut(s: State, env: Issued, nowMs: nat)
    requires Queue(s, env) && env.nowMs <= nowMs
    ensures AllTimedOut(ExpireQueue(s, nowMs).etw, nowMs) == {}
  {
    ExpireQueueScansAll(s, nowMs);
  }

  // ---- The tick keeps the join's invariant ------------------------------------------------------

  // Timed-out records stopped waiting; the queue lost a prefix of keys that no longer wait.
  ghost predicate Expires(s: State, t: State) {
    && t.live == s.live && t.etw.Keys == s.etw.Keys
    && (forall k | k in s.etw ::
          t.etw[k] == s.etw[k] ||
          (s.etw[k].pendingSince != 0 && t.etw[k] == s.etw[k].(pendingSince := 0, expired := true)))
    && t.ix == s.ix.(pendingQ := t.ix.pendingQ, dead := t.ix.dead, hist := t.ix.hist)
    && |t.ix.pendingQ| <= |s.ix.pendingQ|
    && t.ix.pendingQ == s.ix.pendingQ[|s.ix.pendingQ| - |t.ix.pendingQ|..]
    && (forall k | IsPending(t, k) :: k in t.ix.pendingQ)
  }

  lemma ExpiresQueue(s: State, t: State, env: Issued)
    requires Queue(s, env) && Expires(s, t)
    ensures Queue(t, env)
  {
    ExpiresSorted(s, t);
    hide QueueSorted;
    forall k | IsPending(t, k) ensures IsPending(s, k) && t.etw[k] == s.etw[k] {}
    forall k ensures Reachable(s, k) <==> Reachable(t, k) {}
    assert forall k | k in t.ix.pendingQ :: k in s.ix.pendingQ;
    assert NoRepeats(t.ix.pendingQ);
  }

  lemma ExpiresSorted(s: State, t: State)
    requires QueueSorted(s) && Expires(s, t)
    ensures QueueSorted(t)
  {
    var n := |s.ix.pendingQ| - |t.ix.pendingQ|;
    forall i | 0 <= i < |t.ix.pendingQ| ensures t.ix.pendingQ[i] == s.ix.pendingQ[n + i] {}
    forall k | IsPending(t, k) ensures IsPending(s, k) && t.etw[k] == s.etw[k] {}
  }

  lemma ExpiresRecords(s: State, t: State, env: Issued)
    requires Records(s, env) && Queue(s, env) && Expires(s, t)
    ensures Records(t, env)
  {
    forall k | k in s.etw && t.etw[k] != s.etw[k] ensures s.etw[k].boundId == 0 { assert IsPending(s, k); }
    forall l, k ensures LeadsTo(t, l, k) <==> LeadsTo(s, l, k) {}
    forall l, k ensures InClass(t, l, k) <==> InClass(s, l, k) {}
  }

  lemma ExpiresObjects(s: State, t: State, env: Issued)
    requires Objects(s, env) && Expires(s, t)
    ensures Objects(t, env)
  {
    forall c, p ensures IsChild(s, c, p) <==> IsChild(t, c, p) {}
    forall c, p ensures Listed(s, c, p) <==> Listed(t, c, p) {}
  }

  lemma {:induction false} PruneFrame(s: State, nowTs: nat)
    ensures var t := Prune(s, nowTs); t == s.(ix := s.ix.(dead := t.ix.dead, hist := t.ix.hist))
    decreases |s.ix.hist|
  {
    if s.ix.hist != [] && nowTs > DESTROY_HISTORY_NS && s.ix.hist[0].0 < nowTs - DESTROY_HISTORY_NS {
      PruneFrame(s.(ix := s.ix.(dead := DropAt(s.ix.dead, s.ix.hist[0].1, nowTs - DESTROY_HISTORY_NS),
                                hist := s.ix.hist[1..])), nowTs);
    }
  }

  lemma TickExpires(s: State, env: Issued, nowMs: nat, nowTs: nat)
    requires Queue(s, env) && env.nowMs <= nowMs
    ensures Expires(s, Tick(s, nowMs, nowTs))
  {
    ExpireQueueScansAll(s, nowMs);
    ExpireQueueFrame(s, nowMs);
    var u := ExpireQueue(s, nowMs);
    PruneFrame(u, nowTs);
    forall k ensures IsPending(Tick(s, nowMs, nowTs), k) <==> IsPending(u, k) {}
  }

  lemma TickKeepsJoin(s: State, env: Issued, nowMs: nat, nowTs: nat)
    requires JoinInv(s, env) && env.nowMs <= nowMs
    ensures JoinInv(Tick(s, nowMs, nowTs), NextTick(s, env, nowMs))
  {
    var t := Tick(s, nowMs, nowTs);
    TickExpires(s, env, nowMs, nowTs);
    hide Tick;
    ExpiresQueue(s, t, env);
    ExpiresRecords(s, t, env);
    ExpiresObjects(s, t, env);
    forall a ensures NoMissedBind(t, a) { assert NoMissedBind(s, a); }
    IssuedMore(t, env, NextTick(s, env, nowMs));
  }
}
