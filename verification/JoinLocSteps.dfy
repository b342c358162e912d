// Every event keeps the cached locations equal to their definition and the byte totals equal to a recount.

module JoinLocSteps {
  import opened Wire
  import opened Tallies
  import opened JoinState
  import opened JoinSteps
  import opened JoinInvariants
  import opened JoinLocations
  import opened JoinPipe

  // The location cache reads neither bindings, nor driver sizes, nor deaths.
  ghost predicate SameLocations(s: State, t: State) {
    && t.locBytes == s.locBytes && t.live.Keys == s.live.Keys
    && forall i | i in s.live ::
         t.live[i] == s.live[i].(etwKey := t.live[i].etwKey, driverSize := t.live[i].driverSize,
                                 prevDestroy := t.live[i].prevDestroy)
  }

  lemma SameLocationsKeep(s: State, t: State)
    requires LocInv(s) && SameLocations(s, t)
    ensures LocInv(t)
  {
    SameLocTally(s.locBytes, s.live, t.live);
  }

  lemma BindKeepsLoc(s: State, env: Issued, key: nat, id: nat, ts: nat, pick: Order)
    requires Enumerates(pick) && Objects(s, env) && LocInv(s) && key in s.etw && id in s.live
    ensures LocInv(Bind(s, key, id, ts, pick))
  {
    hide Relocate, LocInv, Attach, Objects, OnlyLocations;
    var a, o := Attach(s, key, id, ts), s.live[id];
    AttachFrames(s, key, id, ts);
    SameLocationsKeep(s, a);
    IdentitiesKeepObjects(s, a, env);
    hide SameLocations, SameIdentities;
    ObjectsParts(a, env);
    RelocateRepairs(a, env, id, s.etw[key].group, ts, !o.locReported, pick);
    BindSameLocations(s, key, id, ts, pick);
    SameLocationsKeep(Relocate(a, id, s.etw[key].group, ts, !o.locReported, pick), Bind(s, key, id, ts, pick));
  }

  lemma BindSameLocations(s: State, key: nat, id: nat, ts: nat, pick: Order)
    requires key in s.etw && id in s.live
    ensures id in Attach(s, key, id, ts).live
    ensures SameLocations(Relocate(Attach(s, key, id, ts), id, s.etw[key].group, ts, !s.live[id].locReported, pick),
                          Bind(s, key, id, ts, pick))
  {
    hide Relocate;
  }

  lemma AttachFrames(s: State, key: nat, id: nat, ts: nat)
    requires key in s.etw && id in s.live
    ensures var t := Attach(s, key, id, ts); id in t.live && SameLocations(s, t) && SameIdentities(s, t)
  {
  }

  lemma ObjectsParts(s: State, env: Issued)
    requires Objects(s, env)
    ensures LiveIds(s, env) && ChildIndex(s, env) && ParentsAreHeaps(s.live)
  {
  }

  lemma TryBindKeepsLoc(s: State, env: Issued, key: nat, ts: nat, nowMs: nat, pick: Order)
    requires Enumerates(pick) && Objects(s, env) && LocInv(s)
    ensures LocInv(TryBind(s, key, ts, nowMs, pick))
  {
    if key in s.etw && !Settled(s.etw[key]) {
      hide Bind, LocInv;
      var e := s.etw[key];
      if HasLiveMatch(s, e) {
        BindKeepsLoc(s, env, key, s.ix.ptrToId[e.address], ts, pick);
      } else {
        SameLocationsKeep(s, TryBind(s, key, ts, nowMs, pick));
      }
    }
  }

  lemma ApplyGroupKeepsLoc(s: State, env: Issued, key: nat, g: MemLoc, ts: nat, pick: Order)
    requires Enumerates(pick) && Objects(s, env) && LocInv(s) && key in s.etw
    ensures LocInv(ApplyGroup(s, key, g, ts, pick))
  {
    var e := s.etw[key];
    var t := s.(etw := s.etw[key := e.(group := g)]);
    hide Relocate;
    IdentitiesKeepObjects(s, t, env);
    if e.boundId != 0 && e.boundId in s.live {
      RelocateRepairs(t, env, e.boundId, g, ts, false, pick);
    }
  }

  lemma ApplySizeKeepsLoc(s: State, key: nat, size: nat, ts: nat)
    requires LocInv(s) && key in s.etw
    ensures LocInv(ApplySize(s, key, size, ts))
  {
    hide LocInv, SubDriver, AddDriver;
    SameLocationsKeep(s, ApplySize(s, key, size, ts));
  }

  // ---- Events -----------------------------------------------------------------------------------

  lemma EnterKeepsLoc(s: State, env: Issued, ts: nat, p: CreatedPayload)
    requires Objects(s, env) && LocInv(s) && FreshObject(s, env, p)
    ensures LocInv(Enter(Admit(s, p), p.id, ts))
  {
    assert p.id !in s.live;
    hide IndexPtr, IndexParent;
    PtrEnters(s, p);
    var a := IndexPtr(Admit(s, p), p.id);
    ParentEnters(a, p.id);
    var b := IndexParent(a, p.id);
    assert b.live == s.live[p.id := b.live[p.id]] && b.locBytes == s.locBytes;
    FirstLocKeeps(s, b, p.id, ts);
  }

  // A new object has no location of its own, so nobody's location changes with it.
  lemma NewcomerKeepsCache(live: map<nat, LiveObject>, id: nat, o: LiveObject)
    requires LocCache(live, {}) && id !in live && o.ownLoc == MemLoc.Unknown
    ensures var placed := o.(effLoc := EffLoc(live[id := o], o));
            LocCache(live[id := placed], {}) && EffLoc(live[id := placed], placed) == placed.effLoc
  {
  }

  lemma FirstLocKeeps(s: State, b: State, id: nat, ts: nat)
    requires LocInv(s) && id !in s.live && id in b.live && b.live == s.live[id := b.live[id]]
    requires b.locBytes == s.locBytes && b.live[id].ownLoc == MemLoc.Unknown
    ensures LocInv(FirstLoc(b, id, ts))
  {
    FirstLocShape(b, id, ts);
    var t := FirstLoc(b, id, ts);
    hide FirstLoc;
    assert s.live[id := b.live[id]] == b.live && t.live == s.live[id := t.live[id]];
    NewcomerInv(s.live, s.locBytes, id, b.live[id], t.live[id]);
  }

  lemma NewcomerInv(live: map<nat, LiveObject>, bytes: Table<LocCell>, id: nat, o: LiveObject, p: LiveObject)
    requires LocCache(live, {}) && Reported(live) && LocTally(bytes, live) && id !in live
    requires o.ownLoc == MemLoc.Unknown
    requires var l := EffLoc(live[id := o], o);
             p == o.(effLoc := l, locReported := p.locReported) && (l != MemLoc.Unknown ==> p.locReported)
    ensures LocCache(live[id := p], {}) && Reported(live[id := p]) && LocTally(AddLoc(bytes, p), live[id := p])
  {
    NewcomerKeepsCache(live, id, o);
    AddLocTally(bytes, live, id, p);
    var placed := o.(effLoc := p.effLoc);
    SameEffLocs(live[id := placed], live[id := p]);
  }

  lemma SameEffLocs(live: map<nat, LiveObject>, live2: map<nat, LiveObject>)
    requires LocCache(live, {}) && live2.Keys == live.Keys
    requires forall i | i in live :: live2[i] == live[i].(locReported := live2[i].locReported)
    ensures LocCache(live2, {})
  {
  }

  lemma CreatedKeepsLoc(s: State, env: Issued, ts: nat, p: CreatedPayload, pick: Order)
    requires Enumerates(pick) && JoinInv(s, env) && LocInv(s) && FreshObject(s, env, p)
    ensures LocInv(Created(s, ts, p, pick))
  {
    EnteredEnters(s, ts, p);
    EnteredParents(s, env, ts, p);
    EnterKeepsLoc(s, env, ts, p);
    hide LocInv, Enter, Bind;
    var t := Enter(Admit(s, p), p.id, ts);
    var o := t.live[p.id];
    EntersObjects(s, t, env, o);
    if o.ptr != 0 && o.ptr in t.ix.byAddr && t.ix.byAddr[o.ptr] in t.etw && CanBind(t.etw[t.ix.byAddr[o.ptr]], o) {
      BindKeepsLoc(t, NextIds(env, p.id), t.ix.byAddr[o.ptr], p.id, ts, pick);
    }
  }

  // ---- Destruction ------------------------------------------------------------------------------

  // The invariant once `gone` no longer counts.
  ghost predicate LocInvWithout(s: State, gone: nat, stale: set<nat>) {
    LocCache(s.live - {gone}, stale) && Reported(s.live - {gone}) && LocTally(s.locBytes, s.live - {gone}) &&
    forall i | i in s.live && i != gone && s.live[i].effLoc == MemLoc.Unknown :: s.live[i].ownLoc == MemLoc.Unknown
  }

  lemma FallBackRepairs(s: State, id: nat, ts: nat, gone: nat, stale: set<nat>)
    requires id in s.live && id != gone && s.live[id].parent == gone && LocInvWithout(s, gone, stale)
    ensures LocInvWithout(FallBack(s, id, ts), gone, stale - {id})
  {
    var live, o := s.live - {gone}, s.live[id];
    var t := FallBack(s, id, ts);
    FallBackShape(s, id, ts);
    assert t.live - {gone} == live[id := o.(effLoc := o.ownLoc)];
    FallBackCaches(live, id, gone, stale);
    hide FallBack, LocTally, LocCache, Reported;
    if o.effLoc != o.ownLoc {
      MoveLocTally(s.locBytes, live, id, o.ownLoc);
    } else {
      assert t.live - {gone} == live;
    }
  }

  lemma FallBackCaches(live: map<nat, LiveObject>, id: nat, gone: nat, stale: set<nat>)
    requires LocCache(live, stale) && Reported(live) && id in live && live[id].parent == gone && gone !in live
    requires live[id].effLoc == MemLoc.Unknown ==> live[id].ownLoc == MemLoc.Unknown
    ensures var live2 := live[id := live[id].(effLoc := live[id].ownLoc)];
            LocCache(live2, stale - {id}) && Reported(live2)
  {
    var live2 := live[id := live[id].(effLoc := live[id].ownLoc)];
    forall i | i in live ensures EffLoc(live2, live2[i]) == EffLoc(live, live[i]) {}
    assert EffLoc(live, live[id]) == live[id].ownLoc;
  }

  lemma FallBackShape(s: State, id: nat, ts: nat)
    requires id in s.live
    ensures var o, t := s.live[id], FallBack(s, id, ts);
            && t.live == s.live[id := o.(effLoc := o.ownLoc)]
            && t.locBytes == if o.effLoc == o.ownLoc then s.locBytes
                             else AddLoc(SubLoc(s.locBytes, o), o.(effLoc := o.ownLoc))
  {
    hide AddLoc, SubLoc;
  }

  lemma {:induction false} FallBackEachRepairs(s: State, ids: seq<nat>, ts: nat, gone: nat, stale: set<nat>)
    requires LocInvWithout(s, gone, stale)
    requires forall c | c in ids :: c in s.live && c != gone && s.live[c].parent == gone
    ensures LocInvWithout(FallBackEach(s, ids, ts), gone, stale - set c | c in ids)
  {
    hide FallBack, LocInvWithout;
    if ids != [] {
      var n := |ids| - 1;
      var t := FallBackEach(s, ids[..n], ts);
      forall c | c in ids[..n] ensures c in ids {}
      FallBackEachRepairs(s, ids[..n], ts, gone, stale);
      assert ids[n] in ids;
      FallBackRepairs(t, ids[n], ts, gone, stale - set c | c in ids[..n]);
      LastOfAll(ids, stale);
    } else {
      assert stale - (set c | c in ids) == stale;
    }
  }

  lemma LastOfAll(ids: seq<nat>, stale: set<nat>)
    requires ids != []
    ensures var n := |ids| - 1; stale - (set c | c in ids[..n]) - {ids[n]} == stale - set c | c in ids
  {
    assert ids == ids[..|ids| - 1] + [ids[|ids| - 1]];
  }

  // With id gone, only its placed resources are stale.
  lemma DetachDirties(s: State, env: Issued, id: nat, ts: nat, kids: set<nat>)
    requires Objects(s, env) && Binding(s) && LocInv(s) && id in s.live
    requires forall c | IsChild(s, c, id) && c != id :: c in kids
    ensures LocInvWithout(Detach(s, id, ts), id, kids)
  {
    hide Detach;
    DetachedShape(s, env, id, ts);
    DetachLocBytes(s, id, ts);
    var t := Detach(s, id, ts);
    assert t.live - {id} == s.live - {id};
    SubLocTally(s.locBytes, s.live, id);
    forall i | i in s.live - {id} && i !in kids
      ensures s.live[i].effLoc == EffLoc(s.live - {id}, s.live[i])
    {
      assert !IsChild(s, i, id);
    }
  }

  lemma DetachLocBytes(s: State, id: nat, ts: nat)
    requires id in s.live
    ensures Detach(s, id, ts).locBytes == SubLoc(s.locBytes, s.live[id])
  {
  }

  lemma AbandonRepairs(s: State, id: nat, ts: nat, kids: set<nat>, pick: Order)
    requires Enumerates(pick) && id in s.live && LocInvWithout(s, id, kids)
    requires if s.live[id].kind.Heap? && id in s.ix.children then kids == s.ix.children[id] else kids == {}
    requires forall c | c in kids :: c in s.live && c != id && s.live[c].parent == id
    ensures LocInvWithout(AbandonChildren(s, id, ts, pick), id, {})
  {
    if s.live[id].kind.Heap? && id in s.ix.children {
      var t := s.(ix := s.ix.(children := s.ix.children - {id}));
      hide FallBackEach;
      FallBackEachRepairs(t, pick(kids), ts, id, kids);
      assert kids - (set c | c in pick(kids)) == {};
    }
  }

  lemma DestroyedKeepsLoc(s: State, env: Issued, ts: nat, id: nat, pick: Order)
    requires Enumerates(pick) && Objects(s, env) && Binding(s) && LocInv(s)
    ensures LocInv(Destroyed(s, ts, id, pick))
  {
    if id in s.live {
      DetachedShape(s, env, id, ts);
      hide Detach, SubTotals, LocInvWithout, AbandonChildren, LocInv;
      var t := Detach(s, id, ts);
      var kids := if t.live[id].kind.Heap? && id in t.ix.children then t.ix.children[id] else {};
      forall c | c in kids ensures c in t.live && c != id && t.live[c].parent == id {
        assert Listed(t, c, id) && Listed(s, c, id) && IsChild(s, c, id);
      }
      forall c | IsChild(s, c, id) && c != id ensures c in kids {
        assert Listed(s, c, id) && Listed(t, c, id);
      }
      DetachDirties(s, env, id, ts, kids);
      AbandonRepairs(t, id, ts, kids, pick);
      AbandonShape(t, id, ts, pick);
      WithoutIsInv(AbandonChildren(t, id, ts, pick), Destroyed(s, ts, id, pick), id);
    }
  }

  lemma WithoutIsInv(s: State, t: State, id: nat)
    requires LocInvWithout(s, id, {}) && t.live == s.live - {id} && t.locBytes == s.locBytes
    ensures LocInv(t)
  {
  }
}
