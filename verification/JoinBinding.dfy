// Binding a record to a live object, and the search that decides on it.

module JoinBinding {
  import opened JoinState
  import opened JoinSteps
  import opened JoinInvariants

  ghost predicate MayBind(s: State, key: nat, id: nat) {
    && Reachable(s, key) && id in s.live
    && s.etw[key].address == s.live[id].ptr && CanBind(s.etw[key], s.live[id])
  }

  // How t differs from s once key is bound to id, cached locations and driver sizes apart.
  ghost predicate BoundTo(s: State, t: State, key: nat, id: nat)
    requires key in s.etw && id in s.live
  {
    && t.ix == s.ix
    && t.live.Keys == s.live.Keys && t.etw.Keys == s.etw.Keys
    && (forall i | i in s.live && i != id :: SameObject(s.live[i], t.live[i]))
    && SameObject(s.live[id].(etwKey := key, ownLoc := s.etw[key].group), t.live[id])
    && (forall k | k in s.etw && k != key && k != s.live[id].etwKey :: t.etw[k] == s.etw[k])
    && (forall k | k in s.etw && k != key && k == s.live[id].etwKey :: t.etw[k] == s.etw[k].(boundId := 0))
    && t.etw[key] == s.etw[key].(boundId := id, pendingSince := 0)
  }

  lemma BindIsBoundTo(s: State, key: nat, id: nat, ts: nat, pick: Order)
    requires key in s.etw && id in s.live && 0 !in s.etw
    ensures BoundTo(s, Bind(s, key, id, ts, pick), key, id)
  {
  }

  lemma BoundObjects(s: State, t: State, env: Issued, key: nat, id: nat)
    requires Objects(s, env) && key in s.etw && id in s.live && BoundTo(s, t, key, id)
    ensures Objects(t, env)
  {
    forall c, p ensures IsChild(s, c, p) <==> IsChild(t, c, p) {}
  }

  lemma BoundBinding(s: State, t: State, env: Issued, key: nat, id: nat)
    requires LiveIds(s, env) && Binding(s) && MayBind(s, key, id) && s.live[id].ptr != 0 && BoundTo(s, t, key, id)
    ensures Binding(t)
  {
    assert s.etw[key].boundId == 0;
    var o := s.live[id].etwKey;
    assert o != key;
    forall i | i in t.live && t.live[i].etwKey != 0
      ensures t.live[i].etwKey in t.etw && t.etw[t.live[i].etwKey].boundId == i
    {
      if i != id { assert s.live[i].etwKey != key && s.live[i].etwKey != o; }
    }
    forall k | k in t.etw && t.etw[k].boundId != 0
      ensures t.etw[k].boundId in t.live && t.live[t.etw[k].boundId].etwKey == k
      ensures Pair(t.etw[k], t.live[t.etw[k].boundId])
    {
      if k != key { assert k != o && s.etw[k].boundId != id; }
    }
  }

  lemma BoundForest(s: State, t: State, env: Issued, key: nat, id: nat)
    requires Forest(s, env) && MayBind(s, key, id) && s.live[id].ptr != 0 && BoundTo(s, t, key, id)
    ensures Forest(t, env)
  {
    hide Forest;
    ForestKept(s, t, env);
  }

  // The pending records are the old ones but key, and they did not change.
  lemma BoundPending(s: State, t: State, env: Issued, key: nat, id: nat, k: nat)
    requires PendingQueue(s, env) && MayBind(s, key, id) && id != 0 && BoundTo(s, t, key, id)
    ensures IsPending(t, k) <==> IsPending(s, k) && k != key
    ensures IsPending(t, k) ==> t.etw[k] == s.etw[k]
  {
  }

  lemma BoundSorted(s: State, t: State, env: Issued, key: nat, id: nat)
    requires Queue(s, env) && MayBind(s, key, id) && id != 0 && BoundTo(s, t, key, id)
    ensures QueueSorted(t)
  {
    forall k ensures IsPending(t, k) ==> IsPending(s, k) && t.etw[k] == s.etw[k] {
      BoundPending(s, t, env, key, id, k);
    }
    hide PendingQueue, IsPending, MayBind;
  }

  // A queued key that is still reachable keeps waiting or is settled: the displaced record is not reachable.
  lemma BoundQueued(s: State, t: State, env: Issued, key: nat, id: nat, k: nat)
    requires Binding(s) && AddrIndex(s) && PendingQueue(s, env) && k in s.ix.pendingQ && Reachable(t, k)
    requires MayBind(s, key, id) && id != 0 && s.live[id].ptr != 0 && BoundTo(s, t, key, id)
    ensures IsPending(t, k) || t.etw[k].boundId != 0 || t.etw[k].orphanTs != 0 || t.etw[k].expired
  {
    assert Reachable(s, k);
    var o := s.live[id].etwKey;
    assert o in s.etw ==> Pair(s.etw[o], s.live[id]) && !Reachable(s, o);
  }

  lemma BoundQueue(s: State, t: State, env: Issued, key: nat, id: nat)
    requires Binding(s) && AddrIndex(s) && Queue(s, env)
    requires MayBind(s, key, id) && id != 0 && s.live[id].ptr != 0 && BoundTo(s, t, key, id)
    ensures Queue(t, env)
  {
    BoundSorted(s, t, env, key, id);
    forall k | k in t.ix.pendingQ && Reachable(t, k)
      ensures IsPending(t, k) || t.etw[k].boundId != 0 || t.etw[k].orphanTs != 0 || t.etw[k].expired
    {
      BoundQueued(s, t, env, key, id, k);
    }
    hide QueueSorted, Binding, AddrIndex, Reachable;
    forall k ensures IsPending(t, k) ==> IsPending(s, k) && t.etw[k] == s.etw[k] {
      BoundPending(s, t, env, key, id, k);
    }
  }

  lemma BoundMaximal(s: State, t: State, key: nat, id: nat)
    requires Binding(s) && AddrIndex(s) && MayBind(s, key, id) && id != 0 && BoundTo(s, t, key, id)
    requires MaximalBut(s, s.etw[key].address)
    ensures Maximal(t)
  {
    var o := s.live[id].etwKey;
    assert o in s.etw ==> Pair(s.etw[o], s.live[id]);
    forall a ensures NoMissedBind(t, a) {
      if a != s.etw[key].address { assert NoMissedBind(s, a); }
    }
  }

  lemma BindKeepsJoin(s: State, env: Issued, key: nat, id: nat, ts: nat, pick: Order)
    requires Objects(s, env) && Records(s, env) && Queue(s, env)
    requires MayBind(s, key, id) && MaximalBut(s, s.etw[key].address)
    ensures JoinInv(Bind(s, key, id, ts, pick), env)
  {
    var t := Bind(s, key, id, ts, pick);
    BindIsBoundTo(s, key, id, ts, pick);
    BoundObjects(s, t, env, key, id);
    BoundBinding(s, t, env, key, id);
    BoundForest(s, t, env, key, id);
    BoundQueue(s, t, env, key, id);
    BoundMaximal(s, t, key, id);
  }

  // ---- Late matches and waiting -----------------------------------------------------------------

  // Only the waiting state of the unbound record key differs.
  ghost predicate Touched(s: State, t: State, key: nat) {
    && key in s.etw && s.etw[key].boundId == 0 && s.etw[key].address != 0
    && t.live == s.live && t.ix == s.ix.(pendingQ := t.ix.pendingQ)
    && key in t.etw && t.etw == s.etw[key := t.etw[key]]
    && t.etw[key] == s.etw[key].(orphanTs := t.etw[key].orphanTs, pendingSince := t.etw[key].pendingSince,
                                 expired := t.etw[key].expired)
  }

  lemma TouchedKeeps(s: State, t: State, env: Issued, key: nat)
    requires Objects(s, env) && Records(s, env) && Touched(s, t, key)
    ensures Objects(t, env) && Records(t, env)
  {
    forall c, p ensures IsChild(s, c, p) <==> IsChild(t, c, p) {}
    forall c, p ensures Listed(s, c, p) <==> Listed(t, c, p) {}
    ForestKept(s, t, env);
  }

  lemma TouchedMaximal(s: State, t: State, env: Issued, key: nat)
    requires AddrIndex(s) && Touched(s, t, key) && MaximalBut(s, s.etw[key].address)
    requires NoMissedBind(t, s.etw[key].address)
    ensures Maximal(t)
  {
    forall a ensures NoMissedBind(t, a) {
      if a != s.etw[key].address { assert NoMissedBind(s, a); }
    }
  }

  lemma LateQueue(s: State, env: Issued, key: nat, x: DeadObj, ts: nat)
    requires Queue(s, env) && Reachable(s, key)
    ensures Queue(MatchLate(s, key, x, ts), env)
  {
    var t := MatchLate(s, key, x, ts);
    forall k ensures Reachable(s, k) <==> Reachable(t, k) {}
    forall k ensures IsPending(t, k) <==> IsPending(s, k) && k != key {}
  }

  lemma WaitQueue(s: State, env: Issued, key: nat)
    requires Queue(s, env) && key in env.libs
    requires Reachable(s, key) && !Settled(s.etw[key]) && s.etw[key].pendingSince == 0 && !s.etw[key].expired
    ensures Queue(Wait(s, key, env.nowMs), env)
  {
    var t := Wait(s, key, env.nowMs);
    assert key !in s.ix.pendingQ;
    forall k ensures Reachable(s, k) <==> Reachable(t, k) {}
    forall k ensures IsPending(t, k) <==> IsPending(s, k) || k == key {}
  }

  // The search keeps the invariant and closes the one gap it was called for.
  lemma TryBindKeepsJoin(s: State, env: Issued, key: nat, ts: nat, pick: Order)
    requires Objects(s, env) && Records(s, env) && Queue(s, env)
    requires Reachable(s, key) && MaximalBut(s, s.etw[key].address)
    ensures JoinInv(TryBind(s, key, ts, env.nowMs, pick), env)
  {
    var e := s.etw[key];
    if Settled(e) {
      assert NoMissedBind(s, e.address);
    } else if HasLiveMatch(s, e) {
      BindKeepsJoin(s, env, key, s.ix.ptrToId[e.address], ts, pick);
    } else if HasLateMatch(s, e) {
      var x := DeadAt(s, e.address)[FirstMatch(e, DeadAt(s, e.address))];
      var t := MatchLate(s, key, x, ts);
      TouchedKeeps(s, t, env, key);
      LateQueue(s, env, key, x, ts);
      TouchedMaximal(s, t, env, key);
    } else if e.pendingSince == 0 && !e.expired {
      var t := Wait(s, key, env.nowMs);
      TouchedKeeps(s, t, env, key);
      assert InClass(s, key, key) && LeadsTo(s, key, key);
      WaitQueue(s, env, key);
      TouchedMaximal(s, t, env, key);
    } else {
      assert NoMissedBind(s, e.address);
    }
  }
}
