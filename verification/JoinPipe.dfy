// Creation and destruction events from the pipe keep the join's invariant.

module JoinPipe {
  import opened Wire
  import opened JoinState
  import opened JoinSteps
  import opened JoinInvariants
  import opened JoinBinding

  // What the environment promises about a creation: a fresh non-zero id, and parents that are heaps.
  ghost predicate FreshObject(s: State, env: Issued, p: CreatedPayload) {
    && p.id != 0 && p.id !in env.ids
    && ParentsAreHeaps(s.live[p.id := NewObject(p)])
  }

  function NextIds(env: Issued, id: nat): Issued {
    env.(ids := env.ids + {id})
  }

  // How t differs from s once o has entered.
  ghost predicate Enters(s: State, t: State, o: LiveObject) {
    && t.etw == s.etw
    && t.live.Keys == s.live.Keys + {o.id} && t.live[o.id] == o && o.etwKey == 0
    && (forall i | i in s.live && i != o.id :: t.live[i] == s.live[i])
    && t.ix == s.ix.(ptrToId := t.ix.ptrToId, children := t.ix.children)
    && t.ix.ptrToId == (if o.ptr != 0 then s.ix.ptrToId[o.ptr := o.id] else s.ix.ptrToId)
    && (forall p, c :: Listed(t, c, p) <==> Listed(s, c, p) || (c == o.id && IsPlaced(o) && p == o.parent))
  }

  lemma PtrEnters(s: State, p: CreatedPayload)
    requires p.id !in s.live
    ensures var t := IndexPtr(Admit(s, p), p.id);
            var o := t.live[p.id];
            && t.live == s.live[p.id := o] && SameStatic(NewObject(p), o) && o.etwKey == 0 && o.id == p.id
            && t.etw == s.etw
            && t.ix == s.ix.(ptrToId := if o.ptr != 0 then s.ix.ptrToId[o.ptr := o.id] else s.ix.ptrToId)
  {
  }

  lemma ParentEnters(s: State, id: nat)
    requires id in s.live
    ensures var t := IndexParent(s, id);
            var o := s.live[id];
            && t.live == s.live && t.etw == s.etw
            && t.ix == s.ix.(children := t.ix.children)
            && forall p, c :: Listed(t, c, p) <==> Listed(s, c, p) || (c == id && IsPlaced(o) && p == o.parent)
  {
  }

  lemma LocatedEnters(s: State, t: State, u: State, o: LiveObject)
    requires Enters(s, t, o) && OnlyLocations(t, u) && (forall i | i in t.live && i != o.id :: u.live[i] == t.live[i])
    ensures Enters(s, u, u.live[o.id]) && SameStatic(o, u.live[o.id])
  {
    forall q, c ensures Listed(u, c, q) <==> Listed(t, c, q) {}
  }

  lemma FirstLocFrame(s: State, id: nat, ts: nat)
    requires id in s.live
    ensures forall i | i in s.live && i != id :: FirstLoc(s, id, ts).live[i] == s.live[i]
  {
  }

  lemma EnteredEnters(s: State, ts: nat, p: CreatedPayload)
    requires p.id !in s.live
    ensures var t := Enter(Admit(s, p), p.id, ts);
            p.id in t.live && Enters(s, t, t.live[p.id]) && SameStatic(NewObject(p), t.live[p.id])
  {
    hide IndexPtr, IndexParent, FirstLoc;
    PtrEnters(s, p);
    var t := IndexPtr(Admit(s, p), p.id);
    ParentEnters(t, p.id);
    var u := IndexParent(t, p.id);
    forall q, c ensures Listed(t, c, q) <==> Listed(s, c, q) {}
    assert Enters(s, u, u.live[p.id]);
    FirstLocFrame(u, p.id, ts);
    LocatedEnters(s, u, FirstLoc(u, p.id, ts), u.live[p.id]);
  }

  lemma EntersObjects(s: State, t: State, env: Issued, o: LiveObject)
    requires Objects(s, env) && o.id !in env.ids && o.id != 0 && Enters(s, t, o) && ParentsAreHeaps(t.live)
    ensures Objects(t, NextIds(env, o.id))
  {
    assert o.id !in s.live;
    forall c, p ensures IsChild(t, c, p) <==> IsChild(s, c, p) || (c == o.id && IsPlaced(o) && p == o.parent) {}
  }

  lemma EntersRecords(s: State, t: State, env: Issued, o: LiveObject)
    requires LiveIds(s, env) && Records(s, env) && o.id !in env.ids && Enters(s, t, o)
    ensures Records(t, NextIds(env, o.id))
  {
    assert o.id !in s.live;
    ForestKept(s, t, env);
    SameLibs(t, env, NextIds(env, o.id));
  }

  lemma SameLibs(s: State, env: Issued, env2: Issued)
    requires Forest(s, env) && env2.libs == env.libs
    ensures Forest(s, env2)
  {
  }

  lemma EntersQueue(s: State, t: State, env: Issued, o: LiveObject)
    requires Queue(s, env) && Enters(s, t, o)
    ensures Queue(t, NextIds(env, o.id))
  {
    forall k ensures IsPending(s, k) <==> IsPending(t, k) {}
    forall k ensures Reachable(s, k) <==> Reachable(t, k) {}
  }

  lemma EntersMaximal(s: State, t: State, env: Issued, o: LiveObject)
    requires Objects(s, env) && Maximal(s) && o.id !in env.ids && Enters(s, t, o)
    ensures MaximalBut(t, o.ptr) && (o.ptr == 0 ==> Maximal(t))
  {
    forall a | a != o.ptr || a == 0 ensures NoMissedBind(t, a) {
      assert NoMissedBind(s, a);
    }
  }

  lemma EnteredParents(s: State, env: Issued, ts: nat, p: CreatedPayload)
    requires LiveIds(s, env) && FreshObject(s, env, p)
    ensures ParentsAreHeaps(Enter(Admit(s, p), p.id, ts).live)
  {
    hide Enter;
    EnteredEnters(s, ts, p);
    SameParents(s.live[p.id := NewObject(p)], Enter(Admit(s, p), p.id, ts).live);
  }

  lemma CreatedKeepsJoin(s: State, env: Issued, ts: nat, p: CreatedPayload, pick: Order)
    requires JoinInv(s, env) && FreshObject(s, env, p)
    ensures JoinInv(Created(s, ts, p, pick), NextIds(env, p.id))
  {
    hide JoinNew, Enter;
    assert p.id !in s.live;
    EnteredEnters(s, ts, p);
    EnteredParents(s, env, ts, p);
    var t := Enter(Admit(s, p), p.id, ts);
    JoinNewKeepsJoin(s, t, env, t.live[p.id], ts, pick);
  }

  lemma JoinNewKeepsJoin(s: State, t: State, env: Issued, o: LiveObject, ts: nat, pick: Order)
    requires JoinInv(s, env) && o.id != 0 && o.id !in env.ids && Enters(s, t, o) && ParentsAreHeaps(t.live)
    ensures JoinInv(JoinNew(t, o.id, ts, pick), NextIds(env, o.id))
  {
    EntersObjects(s, t, env, o);
    EntersRecords(s, t, env, o);
    EntersQueue(s, t, env, o);
    EntersMaximal(s, t, env, o);
    if o.ptr != 0 && o.ptr in t.ix.byAddr && t.ix.byAddr[o.ptr] in t.etw && CanBind(t.etw[t.ix.byAddr[o.ptr]], o) {
      BindKeepsJoin(t, NextIds(env, o.id), t.ix.byAddr[o.ptr], o.id, ts, pick);
    } else {
      assert NoMissedBind(t, o.ptr);
    }
  }

  // The fields that never change after creation.
  predicate SameStatic(o: LiveObject, p: LiveObject) {
    p == o.(prevDestroy := p.prevDestroy, etwKey := p.etwKey, ownLoc := p.ownLoc, effLoc := p.effLoc,
            locReported := p.locReported, driverSize := p.driverSize)
  }

  lemma SameParents(live: map<nat, LiveObject>, live2: map<nat, LiveObject>)
    requires live.Keys == live2.Keys && forall i | i in live :: SameStatic(live[i], live2[i])
    requires ParentsAreHeaps(live)
    ensures ParentsAreHeaps(live2)
  {
  }

  // ---- Destruction ------------------------------------------------------------------------------

  // How t differs from s once id is gone.
  ghost predicate Leaves(s: State, t: State, id: nat)
    requires id in s.live
  {
    var o := s.live[id];
    && t.live.Keys == s.live.Keys - {id}
    && (forall i | i in t.live :: SameObject(s.live[i], t.live[i]))
    && t.etw.Keys == s.etw.Keys
    && (forall k | k in s.etw && s.etw[k].boundId != id :: t.etw[k] == s.etw[k])
    && (forall k | k in s.etw && s.etw[k].boundId == id ::
          t.etw[k].orphanTs != 0 && t.etw[k] == s.etw[k].(boundId := 0, orphanTs := t.etw[k].orphanTs))
    && t.ix == s.ix.(ptrToId := t.ix.ptrToId, children := t.ix.children, dead := t.ix.dead, hist := t.ix.hist)
    && t.ix.ptrToId == (if o.ptr in s.ix.ptrToId && s.ix.ptrToId[o.ptr] == id then s.ix.ptrToId - {o.ptr}
                        else s.ix.ptrToId)
    && (forall p, c :: Listed(t, c, p) <==> Listed(s, c, p) && c != id && p != id)
  }

  lemma DetachedShape(s: State, env: Issued, id: nat, ts: nat)
    requires Objects(s, env) && Binding(s) && id in s.live
    ensures var o, t := s.live[id], Detach(s, id, ts);
            && t.live == s.live[id := o.(etwKey := 0)]
            && t.etw.Keys == s.etw.Keys
            && (forall k | k in s.etw && s.etw[k].boundId != id :: t.etw[k] == s.etw[k])
            && (forall k | k in s.etw && s.etw[k].boundId == id ::
                  t.etw[k].orphanTs != 0 && t.etw[k] == s.etw[k].(boundId := 0, orphanTs := t.etw[k].orphanTs))
            && t.ix == s.ix.(ptrToId := t.ix.ptrToId, children := t.ix.children, dead := t.ix.dead, hist := t.ix.hist)
            && t.ix.ptrToId == (if o.ptr in s.ix.ptrToId && s.ix.ptrToId[o.ptr] == id then s.ix.ptrToId - {o.ptr}
                                else s.ix.ptrToId)
            && (forall p, c :: Listed(t, c, p) <==> Listed(s, c, p) && c != id)
  {
    hide SubLoc, Orphan, UnindexParent, Bury;
    var o := s.live[id];
    var s0 := s.(locBytes := SubLoc(s.locBytes, o));
    BuryShape(s0, id, ts);
    var s1 := Bury(s0, id, ts);
    OrphanShape(s1, id, ts);
    var s2 := Orphan(s1, id, ts);
    forall p, c ensures Listed(s2, c, p) <==> Listed(s, c, p) {}
    forall p | Listed(s, id, p) ensures IsPlaced(o) && p == o.parent { assert IsChild(s, id, p); }
    UnindexShape(s2, id);
  }

  lemma BuryShape(s: State, id: nat, ts: nat)
    requires id in s.live && PtrIndex(s)
    ensures var o, t := s.live[id], Bury(s, id, ts);
            && t == s.(ix := s.ix.(ptrToId := t.ix.ptrToId, dead := t.ix.dead, hist := t.ix.hist))
            && t.ix.ptrToId == (if o.ptr in s.ix.ptrToId && s.ix.ptrToId[o.ptr] == id then s.ix.ptrToId - {o.ptr}
                                else s.ix.ptrToId)
  {
  }

  lemma UnindexShape(s: State, id: nat)
    requires id in s.live && forall p | Listed(s, id, p) :: IsPlaced(s.live[id]) && p == s.live[id].parent
    ensures var t := UnindexParent(s, id);
            && t == s.(ix := s.ix.(children := t.ix.children))
            && forall p, c :: Listed(t, c, p) <==> Listed(s, c, p) && c != id
  {
    var t := UnindexParent(s, id);
    forall p, c ensures Listed(t, c, p) <==> Listed(s, c, p) && c != id {
      assert Listed(s, c, p) && c != id ==> c in s.ix.children[p] - {id};
    }
  }

  lemma OrphanShape(s: State, id: nat, ts: nat)
    requires Binding(s) && id in s.live && id != 0
    ensures var t := Orphan(s, id, ts);
            && t == s.(etw := t.etw, live := s.live[id := s.live[id].(etwKey := 0)])
            && t.etw.Keys == s.etw.Keys
            && (forall k | k in s.etw && s.etw[k].boundId != id :: t.etw[k] == s.etw[k])
            && (forall k | k in s.etw && s.etw[k].boundId == id ::
                  t.etw[k].orphanTs != 0 && t.etw[k] == s.etw[k].(boundId := 0, orphanTs := t.etw[k].orphanTs))
  {
    assert forall k | k in s.etw && s.etw[k].boundId == id :: k == s.live[id].etwKey;
    assert s.live[id].etwKey == 0 ==> s.live == s.live[id := s.live[id].(etwKey := 0)];
  }

  lemma AbandonShape(s: State, id: nat, ts: nat, pick: Order)
    requires id in s.live
    ensures var t := AbandonChildren(s, id, ts, pick);
            && OnlyLocations(s.(ix := t.ix), t)
            && t.ix == s.ix.(children := t.ix.children)
            && forall p, c :: Listed(t, c, p) <==> Listed(s, c, p) && (p != id || !s.live[id].kind.Heap?)
  {
  }

  lemma DestroyedLeaves(s: State, env: Issued, id: nat, ts: nat, pick: Order)
    requires Objects(s, env) && Binding(s) && id in s.live
    ensures Leaves(s, Destroyed(s, ts, id, pick), id)
  {
    hide Detach, UnindexParent, Orphan, Bury, AbandonChildren, SubTotals;
    DetachedShape(s, env, id, ts);
    var t := Detach(s, id, ts);
    AbandonShape(t, id, ts, pick);
    var u := AbandonChildren(t, id, ts, pick);
    var v := Destroyed(s, ts, id, pick);
    forall p, c ensures Listed(v, c, p) <==> Listed(s, c, p) && c != id && p != id {
      assert Listed(u, c, p) <==> Listed(v, c, p);
      assert Listed(s, c, id) ==> IsChild(s, c, id);
    }
  }

  lemma LeavesObjects(s: State, t: State, env: Issued, id: nat)
    requires Objects(s, env) && id in s.live && Leaves(s, t, id)
    ensures Objects(t, env)
  {
    forall c, p ensures IsChild(t, c, p) <==> IsChild(s, c, p) && c != id {}
  }

  lemma LeavesRecords(s: State, t: State, env: Issued, id: nat)
    requires LiveIds(s, env) && Records(s, env) && id in s.live && Leaves(s, t, id)
    ensures Records(t, env)
  {
    hide Forest;
    LeavesBinding(s, t, env, id);
    assert forall k | k in s.etw && Blank(s.etw[k]) :: s.etw[k].boundId != id;
    ForestKept(s, t, env);
  }

  lemma LeavesBinding(s: State, t: State, env: Issued, id: nat)
    requires LiveIds(s, env) && Binding(s) && id in s.live && Leaves(s, t, id)
    ensures Binding(t)
  {
    forall i | i in t.live && t.live[i].etwKey != 0
      ensures t.live[i].etwKey in t.etw && t.etw[t.live[i].etwKey].boundId == i
    {
      assert s.live[i].etwKey == t.live[i].etwKey;
    }
  }

  lemma LeavesQueue(s: State, t: State, env: Issued, id: nat)
    requires LiveIds(s, env) && Binding(s) && Queue(s, env) && id in s.live && Leaves(s, t, id)
    ensures Queue(t, env)
  {
    forall k ensures IsPending(s, k) <==> IsPending(t, k) {}
    forall k ensures Reachable(s, k) <==> Reachable(t, k) {}
  }

  lemma LeavesMaximal(s: State, t: State, id: nat)
    requires PtrIndex(s) && Maximal(s) && id in s.live && Leaves(s, t, id)
    ensures Maximal(t)
  {
    forall a ensures NoMissedBind(t, a) { assert NoMissedBind(s, a); }
  }

  lemma DestroyedKeepsJoin(s: State, env: Issued, ts: nat, id: nat, pick: Order)
    requires JoinInv(s, env)
    ensures JoinInv(Destroyed(s, ts, id, pick), env)
  {
    if id in s.live {
      var t := Destroyed(s, ts, id, pick);
      DestroyedLeaves(s, env, id, ts, pick);
      LeavesObjects(s, t, env, id);
      LeavesRecords(s, t, env, id);
      LeavesQueue(s, t, env, id);
      LeavesMaximal(s, t, id);
    }
  }
}
