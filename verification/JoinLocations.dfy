// The location cache and its byte totals are repaired by every step that disturbs them.

module JoinLocations {
  import opened Tallies
  import opened JoinState
  import opened JoinSteps
  import opened JoinInvariants

  lemma AddLocTally(t: Table<LocCell>, live: map<nat, LiveObject>, id: nat, o: LiveObject)
    requires LocTally(t, live) && id !in live
    ensures LocTally(AddLoc(t, o), live[id := o])
  {
    TallyAdd(t, live, LocWeight, id, o, LocCellOf(o), if o.alloc.NoAllocation? then 0 else o.size);
  }

  // The clamp of the saturating subtraction is never taken.
  lemma SubLocTally(t: Table<LocCell>, live: map<nat, LiveObject>, id: nat)
    requires LocTally(t, live) && id in live
    ensures LocTally(SubLoc(t, live[id]), live - {id})
    ensures !live[id].alloc.NoAllocation? ==> At(t, LocCellOf(live[id])) >= live[id].size
  {
    var o := live[id];
    TallySub(t, live, LocWeight, id, LocCellOf(o), if o.alloc.NoAllocation? then 0 else o.size);
  }

  lemma MoveLocTally(t: Table<LocCell>, live: map<nat, LiveObject>, id: nat, l: MemLoc)
    requires LocTally(t, live) && id in live
    ensures var o := live[id].(effLoc := l);
            LocTally(AddLoc(SubLoc(t, live[id]), o), live[id := o])
  {
    var o := live[id].(effLoc := l);
    SubLocTally(t, live, id);
    AddLocTally(SubLoc(t, live[id]), live - {id}, id, o);
    assert (live - {id})[id := o] == live[id := o];
  }

  // Fields that the weight does not read do not matter.
  lemma SameLocTally(t: Table<LocCell>, live: map<nat, LiveObject>, live2: map<nat, LiveObject>)
    requires LocTally(t, live) && live.Keys == live2.Keys
    requires forall i | i in live ::
               live2[i].alloc == live[i].alloc && live2[i].size == live[i].size &&
                LocCellOf(live2[i]) == LocCellOf(live[i])
    ensures LocTally(t, live2)
  {
    TallySame(t, live, live2, LocWeight);
  }

  // EffLoc reads no cached location.
  lemma EffLocStable(s: State, t: State)
    requires OnlyLocations(s, t)
    ensures forall i | i in s.live :: EffLoc(t.live, t.live[i]) == EffLoc(s.live, s.live[i])
  {
  }

  // A first location is written at once, unless it is unknown.
  lemma FirstLocShape(s: State, id: nat, ts: nat)
    requires id in s.live
    ensures var o, l, t := s.live[id], EffLoc(s.live, s.live[id]), FirstLoc(s, id, ts);
            && t.live == s.live[id := o.(effLoc := l, locReported := o.locReported || l != MemLoc.Unknown)]
            && t.locBytes == AddLoc(s.locBytes, o.(effLoc := l))
            && t.log == if l != MemLoc.Unknown then s.log + [LocationLine(ts, id, l, ViaHeap(s.live, o))] else s.log
  {
    hide AddLoc;
    var o := s.live[id];
    var placed := o.(effLoc := EffLoc(s.live, o));
    assert EffLoc(s.live[id := placed], placed) == placed.effLoc;
    assert ViaHeap(s.live[id := placed], placed) == ViaHeap(s.live, o);
  }

  lemma RecomputeLocRepairs(s: State, id: nat, ts: nat, force: bool, stale: set<nat>)
    requires id in s.live && LocCache(s.live, stale) && Reported(s.live) && LocTally(s.locBytes, s.live)
    ensures var t := RecomputeLoc(s, id, ts, force);
            LocCache(t.live, stale - {id}) && Reported(t.live) && LocTally(t.locBytes, t.live)
  {
    var o, l := s.live[id], EffLoc(s.live, s.live[id]);
    var t := RecomputeLoc(s, id, ts, force);
    EffLocStable(s, t);
    MoveLocTally(s.locBytes, s.live, id, l);
    var u := if l != o.effLoc then MoveLoc(s, id, l) else s;
    assert LocTally(u.locBytes, u.live);
    SameLocTally(u.locBytes, u.live, t.live);
  }

  lemma {:induction false} RecomputeEachRepairs(s: State, ids: seq<nat>, ts: nat, stale: set<nat>)
    requires LocCache(s.live, stale) && Reported(s.live) && LocTally(s.locBytes, s.live)
    ensures var t := RecomputeEach(s, ids, ts);
            LocCache(t.live, stale - set c | c in ids) && Reported(t.live) && LocTally(t.locBytes, t.live)
  {
    if ids != [] {
      var n := |ids| - 1;
      var t := RecomputeEach(s, ids[..n], ts);
      RecomputeEachRepairs(s, ids[..n], ts, stale);
      var left := stale - set c | c in ids[..n];
      if ids[n] in t.live {
        RecomputeLocRepairs(t, ids[n], ts, false, left);
      }
      assert ids == ids[..n] + [ids[n]];
    }
  }

  // The child index knows every placed resource of a live object, and that object is a heap.
  lemma KidsListed(s: State, env: Issued, id: nat)
    requires LiveIds(s, env) && ChildIndex(s, env) && ParentsAreHeaps(s.live) && id in s.live
    ensures forall c | IsChild(s, c, id) :: s.live[id].kind.Heap? && id in s.ix.children && c in s.ix.children[id]
  {
  }

  // Moving an object's own location leaves it and its placed resources to repair.
  lemma OwnLocDirties(s: State, id: nat, g: MemLoc, stale: set<nat>)
    requires id in s.live && LocInv(s) && forall c | IsChild(s, c, id) :: c in stale
    ensures var live := s.live[id := s.live[id].(ownLoc := g)];
            LocCache(live, stale + {id}) && Reported(live) && LocTally(s.locBytes, live)
  {
    var live := s.live[id := s.live[id].(ownLoc := g)];
    SameLocTally(s.locBytes, s.live, live);
    forall i | i in live && i !in stale + {id} ensures live[i].effLoc == EffLoc(live, live[i]) {
      assert !IsChild(s, i, id);
    }
  }

  // ... and the child index finds them all.
  lemma RelocateRepairs(s: State, env: Issued, id: nat, g: MemLoc, ts: nat, force: bool, pick: Order)
    requires Enumerates(pick) && id in s.live
    requires LiveIds(s, env) && ChildIndex(s, env) && ParentsAreHeaps(s.live) && LocInv(s)
    ensures LocInv(Relocate(s, id, g, ts, force, pick))
  {
    KidsListed(s, env, id);
    var kids := if s.live[id].kind.Heap? && id in s.ix.children then s.ix.children[id] else {};
    var s1 := s.(live := s.live[id := s.live[id].(ownLoc := g)]);
    OwnLocDirties(s, id, g, kids);
    var s2 := RecomputeLoc(s1, id, ts, force);
    RecomputeLocRepairs(s1, id, ts, force, kids + {id});
    if kids != {} {
      RecomputeEachRepairs(s2, pick(kids), ts, kids + {id} - {id});
      assert kids + {id} - {id} - (set c | c in pick(kids)) == {};
    } else {
      RecomputeEachRepairs(s2, pick(kids), ts, {});
      assert kids + {id} - {id} == {};
    }
  }
}
