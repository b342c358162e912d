// The two streams race: does it matter whether the pipe's Created or the ETW address arrives first?

module JoinOrder {
  import opened Wire
  import opened Tallies
  import opened Timeline
  import opened JoinState
  import opened JoinSteps
  import opened JoinInvariants
  import opened JoinPipe
  import opened JoinLocations
  import opened JoinAccounts
  import opened JoinLog
  import opened JoinLedger
  import opened JoinRuns
  import opened JoinHistory
  import Etw

  // ---- The part of the state that is not derived ------------------------------------------------

  // Equal but for cached locations, their totals, the log and queue entries that have gone stale.
  ghost predicate SameCore(s: State, t: State) {
    && t.etw == s.etw && t.ix == s.ix.(pendingQ := t.ix.pendingQ)
    && t.totals == s.totals && t.drivers == s.drivers && t.stats == s.stats && t.tb == s.tb && t.watch == s.watch
    && t.live.Keys == s.live.Keys
    && forall i | i in s.live :: SamePrimary(s.live[i], t.live[i])
  }

  predicate SamePrimary(o: LiveObject, p: LiveObject) {
    p == o.(effLoc := p.effLoc, locReported := p.locReported)
  }

  // The steps, on that part.
  function CoreBind(s: State, key: nat, id: nat): State
    requires key in s.etw && id in s.live
  {
    var o, e := s.live[id], s.etw[key];
    s.(etw := Displaced(s.etw, o, key)[key := e.(boundId := id, pendingSince := 0)],
       live := s.live[id := o.(etwKey := key, ownLoc := e.group,
                               driverSize := if IsDriverType(e.kind) then e.size else o.driverSize)],
       stats := s.stats.(binds := s.stats.binds + 1))
  }

  function CoreTry(s: State, key: nat, nowMs: nat): State {
    if key !in s.etw || Settled(s.etw[key]) then s else
      var e := s.etw[key];
      if HasLiveMatch(s, e) then CoreBind(s, key, s.ix.ptrToId[e.address])
      else if HasLateMatch(s, e) then
        var x := DeadAt(s, e.address)[FirstMatch(e, DeadAt(s, e.address))];
        s.(etw := s.etw[key := e.(orphanTs := if x.destroyed != 0 then x.destroyed else 1, pendingSince := 0)],
           stats := s.stats.(lateMatches := s.stats.lateMatches + 1))
      else if e.pendingSince == 0 && !e.expired then
        s.(etw := s.etw[key := e.(pendingSince := WaitStamp(nowMs))])
      else s
  }

  function CoreGroup(s: State, key: nat, g: MemLoc): State
    requires key in s.etw
  {
    var e := s.etw[key];
    s.(etw := s.etw[key := e.(group := g)],
       live := if e.boundId != 0 && e.boundId in s.live
               then s.live[e.boundId := s.live[e.boundId].(ownLoc := g)] else s.live)
  }

  function CoreSize(s: State, key: nat, size: nat): State
    requires key in s.etw
  {
    var e := s.etw[key];
    if size == 0 || size == e.size then s else
      var f := e.(size := size);
      s.(etw := s.etw[key := f], drivers := AddDriver(SubDriver(s.drivers, e), f),
         live := if e.boundId == 0 || !IsDriverType(e.kind) || e.boundId !in s.live then s.live
                 else s.live[e.boundId := s.live[e.boundId].(driverSize := size)])
  }

  function CoreAbsorb(s: State, e: EtwObj, into: nat): (t: State)
    requires into in s.etw
    ensures t.etw.Keys == s.etw.Keys
  {
    var t := CoreSize(s, into, e.size);
    if e.group != MemLoc.Unknown && e.group != t.etw[into].group then CoreGroup(t, into, e.group) else t
  }

  function CoreFold(s: State, key: nat, into: nat): State
    requires key in s.etw && into in s.etw && key != into
  {
    Merge(CoreAbsorb(CountDuplicate(s), s.etw[key], into), key, into)
  }

  function CorePlace(s: State, key: nat, addr: nat): State
    requires key in s.etw
  {
    s.(etw := s.etw[key := s.etw[key].(address := addr)], ix := s.ix.(byAddr := s.ix.byAddr[addr := key]))
  }

  function CoreAddress(s: State, lib: nat, addr: nat, nowMs: nat): State {
    if addr == 0 || !Known(s, lib) || s.etw[s.ix.alias[lib]].address != 0 then s else
      var key := s.ix.alias[lib];
      if IsReReport(s, key, addr) then CoreTry(CoreFold(s, key, s.ix.byAddr[addr]), s.ix.byAddr[addr], nowMs)
      else CoreTry(CorePlace(s, key, addr), key, nowMs)
  }

  // The new object as it enters.
  function Newcomer(s: State, p: CreatedPayload): LiveObject {
    NewObject(p).(prevDestroy := LastAt(s, p.ptr))
  }

  function PtrWith(ptrToId: map<nat, nat>, p: CreatedPayload): map<nat, nat> {
    if p.ptr == 0 then ptrToId else ptrToId[p.ptr := p.id]
  }

  function KidsWith(children: map<nat, set<nat>>, p: CreatedPayload): map<nat, set<nat>> {
    if !IsPlaced(NewObject(p)) then children
    else children[p.parentHeapId :=
                    (if p.parentHeapId in children then children[p.parentHeapId] else {}) + {p.id}]
  }

  function CoreEnter(s: State, p: CreatedPayload): State {
    s.(live := s.live[p.id := Newcomer(s, p)], totals := AddTotals(s.totals, NewObject(p)),
       ix := s.ix.(ptrToId := PtrWith(s.ix.ptrToId, p), children := KidsWith(s.ix.children, p)))
  }

  function CoreJoin(s: State, id: nat): State
    requires id in s.live
  {
    var o := s.live[id];
    if o.ptr != 0 && o.ptr in s.ix.byAddr && s.ix.byAddr[o.ptr] in s.etw && CanBind(s.etw[s.ix.byAddr[o.ptr]], o)
    then CoreBind(s, s.ix.byAddr[o.ptr], id) else s
  }

  // ---- The steps do this, whatever the order in which placed resources are visited --------------

  lemma BindCore(s: State, t: State, key: nat, id: nat, ts: nat, pick: Order)
    requires SameCore(s, t) && key in s.etw && id in s.live
    ensures SameCore(Bind(s, key, id, ts, pick), CoreBind(t, key, id))
  {
    BindShape(s, key, id, ts, pick);
    hide Bind, Displaced;
  }

  lemma BindShape(s: State, key: nat, id: nat, ts: nat, pick: Order)
    requires key in s.etw && id in s.live
    ensures SameCore(Bind(s, key, id, ts, pick), CoreBind(s, key, id))
  {
    hide Displaced;
  }

  lemma TryCore(s: State, t: State, key: nat, ts: nat, nowMs: nat, pick: Order)
    requires SameCore(s, t)
    ensures SameCore(TryBind(s, key, ts, nowMs, pick), CoreTry(t, key, nowMs))
  {
    if key in s.etw && !Settled(s.etw[key]) {
      var e := s.etw[key];
      SameMatches(s, t, e);
      hide Bind, CoreBind, HasLiveMatch, HasLateMatch, DeadAt, FirstMatch;
      if HasLiveMatch(s, e) {
        LiveMatchLives(s, e);
        BindCore(s, t, key, s.ix.ptrToId[e.address], ts, pick);
      }
    }
  }

  lemma LiveMatchLives(s: State, e: EtwObj)
    requires HasLiveMatch(s, e)
    ensures e.address in s.ix.ptrToId && s.ix.ptrToId[e.address] in s.live
  {
  }

  lemma SameMatches(s: State, t: State, e: EtwObj)
    requires SameCore(s, t)
    ensures HasLiveMatch(s, e) == HasLiveMatch(t, e) && HasLateMatch(s, e) == HasLateMatch(t, e)
    ensures DeadAt(s, e.address) == DeadAt(t, e.address)
  {
  }

  lemma GroupCore(s: State, t: State, key: nat, g: MemLoc, ts: nat, pick: Order)
    requires SameCore(s, t) && key in s.etw
    ensures SameCore(ApplyGroup(s, key, g, ts, pick), CoreGroup(t, key, g))
  {
    GroupShape(s, key, g, ts, pick);
    assert SameCore(CoreGroup(s, key, g), CoreGroup(t, key, g));
    hide ApplyGroup, CoreGroup, SamePrimary;
    SameCoreTrans(ApplyGroup(s, key, g, ts, pick), CoreGroup(s, key, g), CoreGroup(t, key, g));
  }

  lemma GroupShape(s: State, key: nat, g: MemLoc, ts: nat, pick: Order)
    requires key in s.etw
    ensures SameCore(ApplyGroup(s, key, g, ts, pick), CoreGroup(s, key, g))
  {
    hide Relocate;
  }

  lemma SizeCore(s: State, t: State, key: nat, size: nat, ts: nat)
    requires SameCore(s, t) && key in s.etw
    ensures SameCore(ApplySize(s, key, size, ts), CoreSize(t, key, size))
  {
    hide AddDriver, SubDriver;
  }

  lemma AbsorbCore(s: State, t: State, e: EtwObj, into: nat, pick: Order)
    requires SameCore(s, t) && into in s.etw
    ensures SameCore(Absorb(s, e, into, pick), CoreAbsorb(t, e, into))
  {
    SizeCore(s, t, into, e.size, e.createdTs);
    ApplySizePast(s, into, e.size, e.createdTs);
    assert e.size == 0 ==> CoreSize(t, into, e.size) == t;
    hide ApplySize, CoreSize, ApplyGroup, CoreGroup;
    var s2, t2 := if e.size != 0 then ApplySize(s, into, e.size, e.createdTs) else s, CoreSize(t, into, e.size);
    GroupCore(s2, t2, into, e.group, e.createdTs, pick);
  }

  lemma FoldCore(s: State, t: State, key: nat, into: nat, pick: Order)
    requires SameCore(s, t) && key in s.etw && into in s.etw && key != into
    ensures SameCore(Fold(s, key, into, pick), CoreFold(t, key, into))
  {
    AbsorbCore(CountDuplicate(s), CountDuplicate(t), s.etw[key], into, pick);
    hide Absorb, CoreAbsorb, SubDriver;
  }

  lemma AddressCore(s: State, t: State, lib: nat, addr: nat, nowMs: nat, pick: Order)
    requires SameCore(s, t)
    ensures SameCore(EtwAddress(s, lib, addr, nowMs, pick), CoreAddress(t, lib, addr, nowMs))
  {
    if addr != 0 && Known(s, lib) && s.etw[s.ix.alias[lib]].address == 0 {
      var key, ts := s.ix.alias[lib], s.etw[s.ix.alias[lib]].createdTs;
      hide TryBind, CoreTry, Fold, CoreFold, SamePrimary;
      if IsReReport(s, key, addr) {
        var into := s.ix.byAddr[addr];
        FoldCore(s, t, key, into, pick);
        TryCore(Fold(s, key, into, pick), CoreFold(t, key, into), into, ts, nowMs, pick);
      } else {
        assert SameCore(SetAddress(s, key, addr), CorePlace(t, key, addr));
        TryCore(SetAddress(s, key, addr), CorePlace(t, key, addr), key, ts, nowMs, pick);
      }
    }
  }

  lemma PtrShape(s: State, p: CreatedPayload)
    ensures p.id in Admit(s, p).live
    ensures IndexPtr(Admit(s, p), p.id)
            == s.(live := s.live[p.id := Newcomer(s, p)], totals := AddTotals(s.totals, NewObject(p)),
                  ix := s.ix.(ptrToId := PtrWith(s.ix.ptrToId, p)))
  {
    hide AddTotals;
    var a := s.live[p.id := NewObject(p)];
    assert a[p.id := Newcomer(s, p)] == s.live[p.id := Newcomer(s, p)];
    assert NewObject(p).prevDestroy == 0;
  }

  lemma EnterShape(s: State, ts: nat, p: CreatedPayload)
    ensures p.id in Admit(s, p).live && SameCore(Enter(Admit(s, p), p.id, ts), CoreEnter(s, p))
  {
    PtrShape(s, p);
    hide FirstLoc, IndexPtr, PtrWith, AddTotals, LastAt;
  }

  lemma EnterSame(s: State, t: State, p: CreatedPayload)
    requires SameCore(s, t)
    ensures SameCore(CoreEnter(s, p), CoreEnter(t, p))
  {
    hide AddTotals, PtrWith, KidsWith;
  }

  lemma CreatedCore(s: State, t: State, ts: nat, p: CreatedPayload, pick: Order)
    requires SameCore(s, t) && p.id !in s.live
    ensures SameCore(Created(s, ts, p, pick), CoreJoin(CoreEnter(t, p), p.id))
  {
    EnterShape(s, ts, p);
    EnterSame(s, t, p);
    var u, v := Enter(Admit(s, p), p.id, ts), CoreEnter(t, p);
    hide Enter, CoreEnter, Bind, CoreBind;
    SameCoreTrans(u, CoreEnter(s, p), v);
    var o := u.live[p.id];
    if o.ptr != 0 && o.ptr in u.ix.byAddr && u.ix.byAddr[o.ptr] in u.etw && CanBind(u.etw[u.ix.byAddr[o.ptr]], o) {
      BindCore(u, v, u.ix.byAddr[o.ptr], p.id, ts, pick);
    }
  }

  lemma SameCoreTrans(s: State, t: State, u: State)
    requires SameCore(s, t) && SameCore(t, u)
    ensures SameCore(s, u)
  {
  }

  // ---- One event after the other ----------------------------------------------------------------

  // The record r sits at the address where p enters.
  ghost predicate Awaits(v: State, p: CreatedPayload, r: nat) {
    && p.id !in v.live && p.id != 0 && p.ptr != 0
    && r in v.etw && v.etw[r].address == p.ptr && p.ptr in v.ix.byAddr && v.ix.byAddr[p.ptr] == r
    && !HasLiveMatch(v, v.etw[r])
  }

  // The attempt on r, before or after p enters.
  lemma TryThenEnter(v: State, p: CreatedPayload, r: nat, nowMs: nat)
    requires Awaits(v, p, r) && !(HasLateMatch(v, v.etw[r]) && CanBind(v.etw[r], Newcomer(v, p)))
    ensures SameCore(CoreTry(CoreEnter(v, p), r, nowMs), CoreJoin(CoreEnter(CoreTry(v, r, nowMs), p), p.id))
  {
    if CanBind(v.etw[r], Newcomer(v, p)) {
      BindsEitherWay(v, p, r, nowMs);
    } else {
      BindsNeitherWay(v, p, r, nowMs);
    }
  }

  lemma BindsEitherWay(v: State, p: CreatedPayload, r: nat, nowMs: nat)
    requires Awaits(v, p, r) && !HasLateMatch(v, v.etw[r]) && CanBind(v.etw[r], Newcomer(v, p))
    ensures CoreTry(CoreEnter(v, p), r, nowMs) == CoreBind(CoreEnter(v, p), r, p.id)
    ensures SameCore(CoreTry(CoreEnter(v, p), r, nowMs), CoreJoin(CoreEnter(CoreTry(v, r, nowMs), p), p.id))
  {
    var u, w := CoreEnter(v, p), CoreTry(v, r, nowMs);
    EnteredAt(v, p);
    TryUnmatched(v, r, nowMs);
    EnterReads(v, w, p);
    assert CoreTry(u, r, nowMs) == CoreBind(u, r, p.id) by {
      hide CoreBind, CoreEnter, HasLateMatch, DeadAt, FirstMatch;
    }
    var x := CoreEnter(w, p);
    assert CoreJoin(x, p.id) == CoreBind(x, r, p.id) by {
      hide CoreBind, CoreEnter, CoreTry, HasLateMatch;
    }
    hide CoreEnter, CoreTry, HasLateMatch;
  }

  lemma BindsNeitherWay(v: State, p: CreatedPayload, r: nat, nowMs: nat)
    requires Awaits(v, p, r) && !CanBind(v.etw[r], Newcomer(v, p))
    ensures SameCore(CoreTry(CoreEnter(v, p), r, nowMs), CoreJoin(CoreEnter(CoreTry(v, r, nowMs), p), p.id))
  {
    var u, w := CoreEnter(v, p), CoreTry(v, r, nowMs);
    EnteredAt(v, p);
    TryUnmatched(v, r, nowMs);
    EnterReads(v, w, p);
    assert CoreJoin(CoreEnter(w, p), p.id) == CoreEnter(w, p) by {
      hide CoreBind, CoreEnter, CoreTry, HasLateMatch;
    }
    SameLateMatch(v, u, v.etw[r]);
    assert !HasLiveMatch(u, v.etw[r]) by { hide CoreEnter, CoreTry, HasLateMatch; }
    hide CoreEnter, HasLateMatch, DeadAt, FirstMatch, HasLiveMatch, Newcomer;
  }

  lemma EnteredAt(s: State, p: CreatedPayload)
    ensures var u := CoreEnter(s, p);
            && u == s.(live := u.live, totals := u.totals, ix := u.ix)
            && u.live == s.live[p.id := Newcomer(s, p)]
            && u.ix == s.ix.(ptrToId := u.ix.ptrToId, children := u.ix.children)
            && (p.ptr != 0 ==> p.ptr in u.ix.ptrToId && u.ix.ptrToId[p.ptr] == p.id)
  {
    hide AddTotals, KidsWith;
  }

  // Entering does not read the records.
  lemma EnterReads(s: State, v: State, p: CreatedPayload)
    requires v == s.(etw := v.etw, stats := v.stats)
    ensures CoreEnter(v, p) == CoreEnter(s, p).(etw := v.etw, stats := v.stats)
  {
    hide AddTotals, KidsWith, PtrWith;
  }

  lemma TryUnmatched(v: State, r: nat, nowMs: nat)
    requires r in v.etw && !HasLiveMatch(v, v.etw[r])
    ensures var w, e := CoreTry(v, r, nowMs), v.etw[r];
            && w == v.(etw := w.etw, stats := w.stats)
            && r in w.etw && w.etw == v.etw[r := w.etw[r]]
            && w.etw[r] == e.(orphanTs := w.etw[r].orphanTs, pendingSince := w.etw[r].pendingSince)
            && (HasLateMatch(v, e) && !Settled(e) ==> w.etw[r].orphanTs != 0)
            && (!HasLateMatch(v, e) || Settled(e) ==> w.etw[r].orphanTs == e.orphanTs && w.stats == v.stats)
  {
    hide DeadAt, FirstMatch;
    assert v.etw == v.etw[r := v.etw[r]];
  }

  lemma SameLateMatch(s: State, t: State, e: EtwObj)
    requires t.ix.dead == s.ix.dead
    ensures HasLateMatch(s, e) == HasLateMatch(t, e) && DeadAt(s, e.address) == DeadAt(t, e.address)
  {
  }

  // ---- Landing on a record ----------------------------------------------------------------------

  predicate Lands(s: State, lib: nat, addr: nat) {
    addr != 0 && Known(s, lib) && s.etw[s.ix.alias[lib]].address == 0
  }

  // The record that the address ends up on, and the state before the attempt to bind it.
  function Target(s: State, lib: nat, addr: nat): nat
    requires Lands(s, lib, addr)
  {
    if IsReReport(s, s.ix.alias[lib], addr) then s.ix.byAddr[addr] else s.ix.alias[lib]
  }

  function Landed(s: State, lib: nat, addr: nat): State
    requires Lands(s, lib, addr)
  {
    var key := s.ix.alias[lib];
    if IsReReport(s, key, addr) then CoreFold(s, key, s.ix.byAddr[addr]) else CorePlace(s, key, addr)
  }

  // No record is bound to the object that is still to come.
  ghost predicate Unseen(s: State, id: nat) {
    id != 0 && id !in s.live && forall k | k in s.etw :: s.etw[k].boundId != id
  }

  lemma SizeThenEnter(s: State, p: CreatedPayload, key: nat, size: nat)
    requires key in s.etw && Unseen(s, p.id)
    ensures CoreEnter(CoreSize(s, key, size), p) == CoreSize(CoreEnter(s, p), key, size)
    ensures Unseen(CoreSize(s, key, size), p.id)
  {
    hide AddDriver, SubDriver, AddTotals, PtrWith, KidsWith;
    var e := s.etw[key];
    if e.boundId in s.live {
      var o := s.live[e.boundId].(driverSize := size);
      assert s.live[p.id := Newcomer(s, p)][e.boundId := o] == s.live[e.boundId := o][p.id := Newcomer(s, p)];
    }
  }

  lemma GroupThenEnter(s: State, p: CreatedPayload, key: nat, g: MemLoc)
    requires key in s.etw && Unseen(s, p.id)
    ensures CoreEnter(CoreGroup(s, key, g), p) == CoreGroup(CoreEnter(s, p), key, g)
    ensures Unseen(CoreGroup(s, key, g), p.id)
  {
    hide AddTotals, PtrWith, KidsWith;
    var e := s.etw[key];
    if e.boundId in s.live {
      var o := s.live[e.boundId].(ownLoc := g);
      assert s.live[p.id := Newcomer(s, p)][e.boundId := o] == s.live[e.boundId := o][p.id := Newcomer(s, p)];
    }
  }

  lemma MergeThenEnter(s: State, p: CreatedPayload, key: nat, into: nat)
    requires key in s.etw && into in s.etw && key != into
    ensures CoreEnter(Merge(s, key, into), p) == Merge(CoreEnter(s, p), key, into)
  {
    hide SubDriver, AddTotals, PtrWith, KidsWith;
  }

  lemma EnterKeepsEtw(s: State, p: CreatedPayload)
    ensures var u := CoreEnter(s, p); u.etw == s.etw && u.ix.byAddr == s.ix.byAddr && u.ix.alias == s.ix.alias
    ensures CoreEnter(CountDuplicate(s), p) == CountDuplicate(CoreEnter(s, p))
  {
    hide AddTotals, PtrWith, KidsWith;
  }

  lemma FoldThenEnter(s: State, p: CreatedPayload, key: nat, into: nat)
    requires key in s.etw && into in s.etw && key != into && Unseen(s, p.id)
    ensures CoreEnter(s, p).etw == s.etw
    ensures CoreEnter(CoreFold(s, key, into), p) == CoreFold(CoreEnter(s, p), key, into)
  {
    var e, c := s.etw[key], CountDuplicate(s);
    EnterKeepsEtw(s, p);
    SizeThenEnter(c, p, into, e.size);
    var d := CoreSize(c, into, e.size);
    assert d.etw.Keys == s.etw.Keys by { hide AddDriver, SubDriver; }
    EnterKeepsEtw(d, p);
    GroupThenEnter(d, p, into, e.group);
    hide CoreSize, CoreGroup, CoreEnter, Merge, CountDuplicate;
    MergeThenEnter(CoreAbsorb(c, e, into), p, key, into);
  }

  lemma PlaceThenEnter(s: State, p: CreatedPayload, key: nat, addr: nat)
    requires key in s.etw
    ensures CoreEnter(CorePlace(s, key, addr), p) == CorePlace(CoreEnter(s, p), key, addr)
  {
    hide AddTotals, PtrWith, KidsWith;
  }

  lemma LandThenEnter(s: State, p: CreatedPayload, lib: nat, addr: nat)
    requires Lands(s, lib, addr) && Unseen(s, p.id)
    ensures var u := CoreEnter(s, p);
            && Lands(u, lib, addr) && Target(u, lib, addr) == Target(s, lib, addr)
            && CoreEnter(Landed(s, lib, addr), p) == Landed(u, lib, addr)
  {
    EnterKeepsEtw(s, p);
    var key := s.ix.alias[lib];
    if IsReReport(s, key, addr) {
      FoldThenEnter(s, p, key, s.ix.byAddr[addr]);
    } else {
      PlaceThenEnter(s, p, key, addr);
    }
    hide CoreEnter, CoreFold, CorePlace;
  }

  // ---- An early bind and a later re-report of the same record -----------------------------------

  lemma SameSubDriver(d: DriverTables, e: EtwObj, f: EtwObj)
    requires e.kind == f.kind && e.size == f.size
    ensures SubDriver(d, e) == SubDriver(d, f) && AddDriver(d, e) == AddDriver(d, f)
  {
  }

  lemma BindThenSize(u: State, key: nat, id: nat, size: nat)
    requires key in u.etw && id in u.live && id != 0 && u.etw[key].boundId == 0 && u.live[id].etwKey == 0
    ensures CoreSize(CoreBind(u, key, id), key, size) == CoreBind(CoreSize(u, key, size), key, id)
  {
    var e := u.etw[key];
    var e2 := e.(boundId := id, pendingSince := 0);
    SameSubDriver(u.drivers, e, e2);
    SameSubDriver(SubDriver(u.drivers, e), e.(size := size), e2.(size := size));
    hide AddDriver, SubDriver;
  }

  lemma BindThenGroup(u: State, key: nat, id: nat, g: MemLoc)
    requires key in u.etw && id in u.live && id != 0 && u.etw[key].boundId == 0 && u.live[id].etwKey == 0
    ensures CoreGroup(CoreBind(u, key, id), key, g) == CoreBind(CoreGroup(u, key, g), key, id)
  {
  }

  lemma BindThenMerge(u: State, key: nat, into: nat, id: nat)
    requires key in u.etw && into in u.etw && key != into && id in u.live && u.live[id].etwKey == 0
    ensures Merge(CoreBind(u, into, id), key, into) == CoreBind(Merge(u, key, into), into, id)
  {
    hide SubDriver;
  }

  lemma BindThenFold(u: State, key: nat, into: nat, id: nat)
    requires key in u.etw && into in u.etw && key != into && id in u.live && id != 0
    requires u.etw[into].boundId == 0 && u.live[id].etwKey == 0
    ensures CoreFold(CoreBind(u, into, id), key, into) == CoreBind(CoreFold(u, key, into), into, id)
  {
    var e, c := u.etw[key], CountDuplicate(u);
    assert CountDuplicate(CoreBind(u, into, id)) == CoreBind(c, into, id);
    BindThenSize(c, into, id, e.size);
    var d := CoreSize(c, into, e.size);
    assert d.etw[into].boundId == 0 && d.live[id].etwKey == 0 && d.etw.Keys == u.etw.Keys &&
           d.live.Keys == u.live.Keys by {
      hide AddDriver, SubDriver;
    }
    BindThenGroup(d, into, id, e.group);
    var f := CoreAbsorb(c, e, into);
    assert f.live[id].etwKey == 0 && f.live.Keys == u.live.Keys && f.etw.Keys == u.etw.Keys by { hide CoreSize; }
    assert CoreBind(d, into, id).etw[into].group == d.etw[into].group;
    hide CoreSize, CoreGroup, Merge, CoreBind;
    BindThenMerge(f, key, into, id);
  }

  // ---- When the order matters -------------------------------------------------------------------

  // The record the address lands on, as it will be when an attempt is made to bind it.
  function LandingRecord(s: State, lib: nat, addr: nat): EtwObj
    requires Lands(s, lib, addr) && Target(s, lib, addr) in s.etw
  {
    s.etw[Target(s, lib, addr)].(address := addr)
  }

  // Another object of a compatible type still owns the address; or a dead owner matches as well as the newcomer; or a
  // stale record of another type still holds the address and would take the newcomer.
  ghost predicate Confused(s: State, p: CreatedPayload, lib: nat) {
    Lands(s, lib, p.ptr) && Target(s, lib, p.ptr) in s.etw &&
    var e, o := LandingRecord(s, lib, p.ptr), Newcomer(s, p);
    || HasLiveMatch(s, e)
    || (HasLateMatch(s, e) && CanBind(e, o))
    || StaleTaker(s, p, lib)
  }

  ghost predicate StaleTaker(s: State, p: CreatedPayload, lib: nat)
    requires Lands(s, lib, p.ptr)
  {
    !IsReReport(s, s.ix.alias[lib], p.ptr) && p.ptr in s.ix.byAddr && s.ix.byAddr[p.ptr] in s.etw &&
    CanBind(s.etw[s.ix.byAddr[p.ptr]], Newcomer(s, p))
  }

  ghost predicate SameOwners(s: State, v: State) {
    && v.live.Keys == s.live.Keys
    && forall i | i in s.live ::
         v.live[i].kind == s.live[i].kind && v.live[i].prevDestroy == s.live[i].prevDestroy &&
         v.live[i].etwKey == s.live[i].etwKey
  }

  ghost predicate Revised(s: State, v: State, into: nat)
    requires into in s.etw
  {
    && v.ix == s.ix && SameOwners(s, v) && v.etw.Keys == s.etw.Keys
    && (forall k | k in s.etw && k != into :: v.etw[k] == s.etw[k])
    && v.etw[into] == s.etw[into].(size := v.etw[into].size, group := v.etw[into].group)
  }

  lemma AbsorbFacts(s: State, e: EtwObj, into: nat)
    requires into in s.etw
    ensures Revised(s, CoreAbsorb(s, e, into), into)
  {
    assert Revised(s, CoreSize(s, into, e.size), into) by { hide AddDriver, SubDriver; }
    var t := CoreSize(s, into, e.size);
    assert Revised(t, CoreGroup(t, into, e.group), into);
    hide CoreSize, CoreGroup;
  }

  // What landing does not change.
  lemma LandedFacts(s: State, lib: nat, addr: nat)
    requires Lands(s, lib, addr) && AddrIndex(s)
    ensures var r, v := Target(s, lib, addr), Landed(s, lib, addr);
            && r in s.etw && r in v.etw && v.etw[r].address == addr && addr in v.ix.byAddr && v.ix.byAddr[addr] == r
            && SameOwners(s, v) && v.ix.ptrToId == s.ix.ptrToId && v.ix.dead == s.ix.dead
            && (forall k | k in v.etw :: k in s.etw && v.etw[k].boundId == s.etw[k].boundId)
            && var e := LandingRecord(s, lib, addr);
               v.etw[r] == e.(size := v.etw[r].size, group := v.etw[r].group, aliases := v.etw[r].aliases)
  {
    var key := s.ix.alias[lib];
    if IsReReport(s, key, addr) {
      AbsorbFacts(CountDuplicate(s), s.etw[key], s.ix.byAddr[addr]);
    }
    hide CoreAbsorb, SubDriver;
  }

  lemma LandedMatches(s: State, p: CreatedPayload, lib: nat)
    requires Lands(s, lib, p.ptr) && AddrIndex(s)
    ensures var r, v := Target(s, lib, p.ptr), Landed(s, lib, p.ptr);
            && r in s.etw && r in v.etw && Newcomer(v, p) == Newcomer(s, p)
            && var e := LandingRecord(s, lib, p.ptr);
               && HasLiveMatch(v, v.etw[r]) == HasLiveMatch(s, e) && HasLateMatch(v, v.etw[r]) == HasLateMatch(s, e)
               && forall o :: CanBind(v.etw[r], o) == CanBind(e, o)
  {
    LandedFacts(s, lib, p.ptr);
    var r, v, e := Target(s, lib, p.ptr), Landed(s, lib, p.ptr), LandingRecord(s, lib, p.ptr);
    SameRecordMatches(v.etw[r], e, DeadAt(s, p.ptr));
    hide Landed, Target, Lands, FirstMatch;
  }

  lemma {:induction false} SameRecordMatches(e: EtwObj, f: EtwObj, d: seq<DeadObj>)
    requires e.kind == f.kind && e.createdTs == f.createdTs
    ensures FirstMatch(e, d) == FirstMatch(f, d)
  {
    if d != [] {
      SameRecordMatches(e, f, d[1..]);
    }
  }

  // ---- The two orders ---------------------------------------------------------------------------

  function PipeFirst(s: State, p: CreatedPayload, lib: nat, nowMs: nat): State {
    CoreAddress(CoreJoin(CoreEnter(s, p), p.id), lib, p.ptr, nowMs)
  }

  function EtwFirst(s: State, p: CreatedPayload, lib: nat, nowMs: nat): State {
    CoreJoin(CoreEnter(CoreAddress(s, lib, p.ptr, nowMs), p), p.id)
  }

  lemma TryAfterLanding(s: State, lib: nat, addr: nat, nowMs: nat)
    requires Lands(s, lib, addr)
    ensures CoreAddress(s, lib, addr, nowMs) == CoreTry(Landed(s, lib, addr), Target(s, lib, addr), nowMs)
  {
    hide CoreTry, CoreFold, CorePlace;
  }

  // Joining the newcomer first does not change where the address lands.
  lemma JoinThenLand(u: State, id: nat, lib: nat, addr: nat)
    requires id in u.live && u.live[id].etwKey == 0
    ensures var b := CoreJoin(u, id);
            && Lands(b, lib, addr) == Lands(u, lib, addr)
            && (Lands(u, lib, addr) ==> Target(b, lib, addr) == Target(u, lib, addr) &&
                                        IsReReport(b, b.ix.alias[lib], addr) == IsReReport(u, u.ix.alias[lib], addr))
  {
  }

  lemma OrdersAgree(s: State, p: CreatedPayload, lib: nat, nowMs: nat)
    requires AddrIndex(s) && Unseen(s, p.id) && p.ptr != 0 && !Confused(s, p, lib)
    ensures SameCore(PipeFirst(s, p, lib, nowMs), EtwFirst(s, p, lib, nowMs))
  {
    var u := CoreEnter(s, p);
    EnteredAt(s, p);
    EnterKeepsEtw(s, p);
    JoinThenLand(u, p.id, lib, p.ptr);
    if Lands(s, lib, p.ptr) {
      var r, v := Target(s, lib, p.ptr), Landed(s, lib, p.ptr);
      LandThenEnter(s, p, lib, p.ptr);
      LandedFacts(s, lib, p.ptr);
      LandedMatches(s, p, lib);
      assert Awaits(v, p, r);
      TryAfterLanding(s, lib, p.ptr, nowMs);
      TryAfterLanding(u, lib, p.ptr, nowMs);
      hide CoreEnter, CoreTry, CoreAddress, Landed, HasLiveMatch, HasLateMatch;
      TryThenEnter(v, p, r, nowMs);
      EarlyBind(s, p, lib, nowMs);
    } else {
      hide CoreEnter, CoreJoin;
      assert CoreAddress(s, lib, p.ptr, nowMs) == s;
    }
  }

  // If the newcomer already took the record when the address arrives, the rest of the step does what it would have
  // done otherwise.
  lemma EarlyBind(s: State, p: CreatedPayload, lib: nat, nowMs: nat)
    requires AddrIndex(s) && Unseen(s, p.id) && p.ptr != 0 && !Confused(s, p, lib) && Lands(s, lib, p.ptr)
    ensures PipeFirst(s, p, lib, nowMs) == CoreAddress(CoreEnter(s, p), lib, p.ptr, nowMs)
  {
    var u, id := CoreEnter(s, p), p.id;
    EnteredAt(s, p);
    EnterKeepsEtw(s, p);
    var b := CoreJoin(u, id);
    if b != u {
      var key, into := s.ix.alias[lib], s.ix.byAddr[p.ptr];
      assert u.live[id] == Newcomer(s, p) && CanBind(s.etw[into], Newcomer(s, p)) && b == CoreBind(u, into, id);
      assert IsReReport(s, key, p.ptr);
      LandThenEnter(s, p, lib, p.ptr);
      LandedFacts(s, lib, p.ptr);
      LandedMatches(s, p, lib);
      BindThenFold(u, key, into, id);
      JoinThenLand(u, id, lib, p.ptr);
      var v := Landed(s, lib, p.ptr);
      assert Awaits(v, p, into);
      BindsEitherWay(v, p, into, nowMs);
      TryAfterLanding(u, lib, p.ptr, nowMs);
      TryAfterLanding(b, lib, p.ptr, nowMs);
      var x := CoreBind(CoreEnter(v, p), into, id);
      assert Landed(b, lib, p.ptr) == x by { hide CoreFold, CoreBind, CoreEnter, CorePlace; }
      assert CoreTry(x, into, nowMs) == x by { hide CoreEnter, Landed; }
    }
  }

  // ---- ... and where they differ ----------------------------------------------------------------

  function BoundTo(s: State, k: nat): nat {
    if k in s.etw then s.etw[k].boundId else 0
  }

  // What joining the newcomer does.
  lemma JoinFacts1(s: State, p: CreatedPayload)
    requires AddrIndex(s) && Unseen(s, p.id) && p.ptr != 0
    ensures var b := CoreJoin(CoreEnter(s, p), p.id);
            && AddrIndex(b) && p.ptr in b.ix.ptrToId && b.ix.ptrToId[p.ptr] == p.id && p.id in b.live
            && b.live[p.id].kind == p.kind && b.live[p.id].prevDestroy == Newcomer(s, p).prevDestroy
            && b.etw.Keys == s.etw.Keys && b.ix.byAddr == s.ix.byAddr && b.ix.alias == s.ix.alias
            && (forall k | k in s.etw :: b.etw[k] == s.etw[k] ||
                  (k == s.ix.byAddr[p.ptr] && p.ptr in s.ix.byAddr && CanBind(s.etw[k], Newcomer(s, p))
                   && b.etw[k] == s.etw[k].(boundId := p.id, pendingSince := 0)))
            && (p.ptr in s.ix.byAddr && CanBind(s.etw[s.ix.byAddr[p.ptr]], Newcomer(s, p)) ==>
                  b.etw[s.ix.byAddr[p.ptr]].boundId == p.id)
  {
    EnteredAt(s, p);
    EnterKeepsEtw(s, p);
    hide CoreEnter;
  }

  // Who a record is bound to after an attempt at an address that id owns.
  lemma TryBound(v: State, r: nat, nowMs: nat, id: nat)
    requires r in v.etw && v.etw[r].address != 0 && id != 0 && id in v.live
    requires v.etw[r].address in v.ix.ptrToId && v.ix.ptrToId[v.etw[r].address] == id
    ensures var w := CoreTry(v, r, nowMs);
            && BoundTo(w, r) == (if CanBind(v.etw[r], v.live[id]) then id else v.etw[r].boundId)
            && (!CanBind(v.etw[r], v.live[id]) ==> forall k | k in v.etw && k != r :: BoundTo(w, k) == v.etw[k].boundId)
  {
    hide DeadAt, FirstMatch;
  }

  // Pipe first, the record can only have gone to the newcomer, and goes there if it can.
  lemma PipeFirstBinds(s: State, p: CreatedPayload, lib: nat, nowMs: nat)
    requires AddrIndex(s) && Unseen(s, p.id) && p.ptr != 0 && Lands(s, lib, p.ptr)
    ensures var r, e := Target(s, lib, p.ptr), LandingRecord(s, lib, p.ptr);
            && (e.boundId == 0 ==> BoundTo(PipeFirst(s, p, lib, nowMs), r) in {0, p.id})
            && (CanBind(e, Newcomer(s, p)) ==> BoundTo(PipeFirst(s, p, lib, nowMs), r) == p.id)
  {
    var u, id := CoreEnter(s, p), p.id;
    EnteredAt(s, p);
    EnterKeepsEtw(s, p);
    JoinThenLand(u, id, lib, p.ptr);
    var b := CoreJoin(u, id);
    JoinFacts1(s, p);
    LandedFacts(s, lib, p.ptr);
    LandedFacts(b, lib, p.ptr);
    TryAfterLanding(b, lib, p.ptr, nowMs);
    var v, r := Landed(b, lib, p.ptr), Target(s, lib, p.ptr);
    TryBound(v, r, nowMs, id);
    hide CoreEnter, CoreJoin, Landed, CoreAddress, Lands, CoreTry, Newcomer, Compatible, Target;
  }

  lemma JoinAfterTry(s: State, p: CreatedPayload, lib: nat, nowMs: nat)
    requires AddrIndex(s) && Unseen(s, p.id) && p.ptr != 0 && Lands(s, lib, p.ptr)
    ensures var r, w := Target(s, lib, p.ptr), CoreTry(Landed(s, lib, p.ptr), Target(s, lib, p.ptr), nowMs);
            && r in w.etw
            && (w.etw[r].boundId != 0 || w.etw[r].orphanTs != 0 ==>
                  BoundTo(EtwFirst(s, p, lib, nowMs), r) == w.etw[r].boundId)
            && (forall k | k != r :: BoundTo(EtwFirst(s, p, lib, nowMs), k) == BoundTo(w, k))
  {
    var r, v := Target(s, lib, p.ptr), Landed(s, lib, p.ptr);
    LandedFacts(s, lib, p.ptr);
    TryAfterLanding(s, lib, p.ptr, nowMs);
    var w := CoreTry(v, r, nowMs);
    assert w.ix.byAddr == v.ix.byAddr && r in w.etw by { hide Landed, HasLateMatch, DeadAt, FirstMatch; }
    EnteredAt(w, p);
    EnterKeepsEtw(w, p);
    hide CoreEnter, Landed, CoreTry, CoreAddress, Lands, Newcomer, Target;
    assert EtwFirst(s, p, lib, nowMs) == CoreJoin(CoreEnter(w, p), p.id);
  }

  // ETW first, another owner takes the record, if it can; else a dead one does.
  lemma EtwFirstTakes(s: State, p: CreatedPayload, lib: nat, nowMs: nat)
    requires AddrIndex(s) && Unseen(s, p.id) && 0 !in s.live && p.ptr != 0 && Lands(s, lib, p.ptr)
    ensures Target(s, lib, p.ptr) in s.etw
    ensures var r, e := Target(s, lib, p.ptr), LandingRecord(s, lib, p.ptr);
            && (HasLiveMatch(s, e) ==> BoundTo(EtwFirst(s, p, lib, nowMs), r) !in {0, p.id})
            && (!HasLiveMatch(s, e) && HasLateMatch(s, e) && CanBind(e, Newcomer(s, p)) ==>
                  BoundTo(EtwFirst(s, p, lib, nowMs), r) == 0)
  {
    var r, v := Target(s, lib, p.ptr), Landed(s, lib, p.ptr);
    LandedFacts(s, lib, p.ptr);
    LandedMatches(s, p, lib);
    JoinAfterTry(s, p, lib, nowMs);
    hide Landed, EtwFirst, Lands, Target, DeadAt, FirstMatch, Newcomer;
    if HasLiveMatch(v, v.etw[r]) {
      TryBound(v, r, nowMs, v.ix.ptrToId[p.ptr]);
    } else if HasLateMatch(v, v.etw[r]) && CanBind(v.etw[r], Newcomer(s, p)) {
      TryUnmatched(v, r, nowMs);
    }
  }

  lemma OneKindEach(e: EtwObj, f: EtwObj, o: ObjectType)
    requires Compatible(e.kind, o) && Compatible(f.kind, o)
    ensures e.kind == f.kind
  {
  }

  // A stale record of another type takes the newcomer only if the pipe comes first.
  lemma StaleTakes(s: State, p: CreatedPayload, lib: nat, nowMs: nat)
    requires AddrIndex(s) && Unseen(s, p.id) && p.ptr != 0 && Lands(s, lib, p.ptr) && StaleTaker(s, p, lib)
    ensures var k := s.ix.byAddr[p.ptr];
            BoundTo(PipeFirst(s, p, lib, nowMs), k) == p.id && BoundTo(EtwFirst(s, p, lib, nowMs), k) == 0
  {
    StaleTakesPipe(s, p, lib, nowMs);
    StaleTakesEtw(s, p, lib, nowMs);
  }

  lemma StaleTakesPipe(s: State, p: CreatedPayload, lib: nat, nowMs: nat)
    requires AddrIndex(s) && Unseen(s, p.id) && p.ptr != 0 && Lands(s, lib, p.ptr) && StaleTaker(s, p, lib)
    ensures BoundTo(PipeFirst(s, p, lib, nowMs), s.ix.byAddr[p.ptr]) == p.id
  {
    var u, id, key, k := CoreEnter(s, p), p.id, s.ix.alias[lib], s.ix.byAddr[p.ptr];
    EnteredAt(s, p);
    EnterKeepsEtw(s, p);
    JoinThenLand(u, id, lib, p.ptr);
    var b := CoreJoin(u, id);
    JoinFacts1(s, p);
    assert k != key && s.etw[k].kind != s.etw[key].kind;
    LandedFacts(b, lib, p.ptr);
    TryAfterLanding(b, lib, p.ptr, nowMs);
    var v := Landed(b, lib, p.ptr);
    assert k in v.etw && v.etw[k] == b.etw[k] && Target(b, lib, p.ptr) == key by { hide CoreFold, CoreEnter, CoreJoin; }
    if CanBind(v.etw[key], v.live[id]) {
      OneKindEach(s.etw[k], v.etw[key], p.kind);
    }
    TryBound(v, key, nowMs, id);
    hide CoreEnter, CoreJoin, Landed, CoreAddress, Lands, CoreTry, Newcomer, Compatible, Target;
  }

  lemma StaleTakesEtw(s: State, p: CreatedPayload, lib: nat, nowMs: nat)
    requires AddrIndex(s) && Unseen(s, p.id) && p.ptr != 0 && Lands(s, lib, p.ptr) && StaleTaker(s, p, lib)
    ensures BoundTo(EtwFirst(s, p, lib, nowMs), s.ix.byAddr[p.ptr]) == 0
  {
    var k, v, r := s.ix.byAddr[p.ptr], Landed(s, lib, p.ptr), Target(s, lib, p.ptr);
    JoinAfterTry(s, p, lib, nowMs);
    LandedFacts(s, lib, p.ptr);
    assert r != k && k in v.etw && v.etw[k] == s.etw[k] by { hide CoreFold; }
    assert v.etw[k].boundId == 0;
    TryOthers(v, r, nowMs, k);
  }

  lemma TryOthers(v: State, r: nat, nowMs: nat, k: nat)
    requires r in v.etw && k in v.etw && k != r
    ensures BoundTo(CoreTry(v, r, nowMs), k) in {v.etw[k].boundId, 0}
  {
    hide DeadAt, FirstMatch;
  }

  // ---- The theorem ------------------------------------------------------------------------------

  // The same bindings, locations, sizes, totals and statistics.
  ghost predicate SameOutcome(s: State, t: State) {
    && t.etw == s.etw && t.totals == s.totals && t.drivers == s.drivers && t.stats == s.stats
    && t.live.Keys == s.live.Keys
    && (forall i | i in s.live :: t.live[i] == s.live[i].(locReported := t.live[i].locReported))
    && forall c :: At(t.locBytes, c) == At(s.locBytes, c)
  }

  // Cached locations and their totals follow from the rest.
  lemma CoreDecides(s: State, t: State)
    requires SameCore(s, t) && LocInv(s) && LocInv(t)
    ensures SameOutcome(s, t)
  {
    forall i | i in s.live ensures t.live[i].effLoc == s.live[i].effLoc {
      assert EffLoc(s.live, s.live[i]) == EffLoc(t.live, t.live[i]);
    }
    SameLocTally(s.locBytes, s.live, t.live);
    forall c ensures At(t.locBytes, c) == At(s.locBytes, c) {
      assert At(s.locBytes, c) == Sum(t.live, LocWeight, c);
    }
  }

  lemma OrdersDiffer(s: State, p: CreatedPayload, lib: nat, nowMs: nat)
    requires AddrIndex(s) && Unseen(s, p.id) && 0 !in s.live && p.ptr != 0 && Confused(s, p, lib)
    ensures exists k :: BoundTo(PipeFirst(s, p, lib, nowMs), k) != BoundTo(EtwFirst(s, p, lib, nowMs), k)
  {
    var r, e := Target(s, lib, p.ptr), LandingRecord(s, lib, p.ptr);
    EtwFirstTakes(s, p, lib, nowMs);
    PipeFirstBinds(s, p, lib, nowMs);
    var k := if StaleTaker(s, p, lib) && !HasLiveMatch(s, e) && !(HasLateMatch(s, e) && CanBind(e, Newcomer(s, p)))
             then s.ix.byAddr[p.ptr] else r;
    if k != r || StaleTaker(s, p, lib) {
      StaleTakes(s, p, lib, nowMs);
    }
    hide PipeFirst, EtwFirst, Lands, Target, HasLateMatch, Newcomer, StaleTaker;
    assert BoundTo(PipeFirst(s, p, lib, nowMs), k) != BoundTo(EtwFirst(s, p, lib, nowMs), k);
  }

  function CreatedThenAddress(ts: nat, p: CreatedPayload, lib: nat, nowMs: nat, pick: Order, pick2: Order): seq<Event> {
    [CreatedEvent(ts, p, pick), EtwAddressEvent(lib, p.ptr, nowMs, pick2)]
  }

  function AddressThenCreated(ts: nat, p: CreatedPayload, lib: nat, nowMs: nat, pick: Order, pick2: Order): seq<Event> {
    [EtwAddressEvent(lib, p.ptr, nowMs, pick2), CreatedEvent(ts, p, pick)]
  }

  lemma RunTwo(s: State, a: Event, b: Event)
    ensures Run(s, [a, b]) == Step(Step(s, a), b)
  {
    hide Step;
    assert [a, b][..1] == [a] && [a][..0] == [];
    assert Run(s, [a]) == Step(s, a);
  }

  lemma OutcomeIff(s: State, p: CreatedPayload, lib: nat, nowMs: nat, x: State, y: State)
    requires AddrIndex(s) && Unseen(s, p.id) && 0 !in s.live && p.ptr != 0
    requires SameCore(x, PipeFirst(s, p, lib, nowMs)) && SameCore(y, EtwFirst(s, p, lib, nowMs))
    requires LocInv(x) && LocInv(y)
    ensures SameOutcome(x, y) <==> !Confused(s, p, lib)
  {
    hide PipeFirst, EtwFirst, Confused, LocInv, SamePrimary, Unseen;
    var v, w := PipeFirst(s, p, lib, nowMs), EtwFirst(s, p, lib, nowMs);
    if Confused(s, p, lib) {
      OrdersDiffer(s, p, lib, nowMs);
    } else {
      OrdersAgree(s, p, lib, nowMs);
      SameCoreTrans(x, v, w);
      SameCoreSym(y, w);
      SameCoreTrans(x, w, y);
      hide SameCore;
      CoreDecides(x, y);
    }
  }

  // Created before the ETW address or after it: the outcome is the same exactly if nobody else can claim the record
  // that the address lands on, and no stale record can claim the object.
  lemma OrderIndependence(s: State, env: Issued, ts: nat, p: CreatedPayload, lib: nat, nowMs: nat,
                          pick: Order, pick2: Order, pick3: Order, pick4: Order)
    requires Inv(s, env) && p.ptr != 0
    requires Fair(s, env, CreatedThenAddress(ts, p, lib, nowMs, pick, pick2))
    requires Fair(s, env, AddressThenCreated(ts, p, lib, nowMs, pick3, pick4))
    ensures SameOutcome(Run(s, CreatedThenAddress(ts, p, lib, nowMs, pick, pick2)),
                        Run(s, AddressThenCreated(ts, p, lib, nowMs, pick3, pick4)))
            <==> !Confused(s, p, lib)
  {
    hide Inv, LocInv, AddrIndex, Issuing, LiveIds, Binding, Run, Fair, Confused, PipeFirst, EtwFirst, Unseen,
         SameOutcome, SameCore;
    var es := CreatedThenAddress(ts, p, lib, nowMs, pick, pick2);
    var fs := AddressThenCreated(ts, p, lib, nowMs, pick3, pick4);
    RunKeepsInv(s, env, es);
    RunKeepsInv(s, env, fs);
    InvParts(s, env);
    InvLoc(Run(s, es), Issuing(s, env, es));
    InvLoc(Run(s, fs), Issuing(s, env, fs));
    FreshFirst(s, env, es);
    UnseenFresh(s, env, p.id);
    AbsentFresh(s, env, p);
    CreatedThenAddressCore(s, ts, p, lib, nowMs, pick, pick2);
    AddressThenCreatedCore(s, ts, p, lib, nowMs, pick3, pick4);
    OutcomeIff(s, p, lib, nowMs, Run(s, es), Run(s, fs));
  }

  lemma AbsentFresh(s: State, env: Issued, p: CreatedPayload)
    requires Unseen(s, p.id)
    ensures p.id !in s.live
  {
  }

  lemma SameCoreSym(s: State, t: State)
    requires SameCore(s, t)
    ensures SameCore(t, s)
  {
  }

  lemma CreatedThenAddressCore(s: State, ts: nat, p: CreatedPayload, lib: nat, nowMs: nat, pick: Order, pick2: Order)
    requires p.id !in s.live
    ensures SameCore(Run(s, CreatedThenAddress(ts, p, lib, nowMs, pick, pick2)), PipeFirst(s, p, lib, nowMs))
  {
    hide Created, EtwAddress, CoreAddress, CoreEnter, CoreJoin, SameCore, Run;
    SameCoreSelf(s);
    CreatedCore(s, s, ts, p, pick);
    var c := Created(s, ts, p, pick);
    EnteredAt(s, p);
    AddressCore(c, CoreJoin(CoreEnter(s, p), p.id), lib, p.ptr, nowMs, pick2);
    RunTwo(s, CreatedEvent(ts, p, pick), EtwAddressEvent(lib, p.ptr, nowMs, pick2));
  }

  lemma AddressThenCreatedCore(s: State, ts: nat, p: CreatedPayload, lib: nat, nowMs: nat, pick: Order, pick2: Order)
    requires p.id !in s.live
    ensures SameCore(Run(s, AddressThenCreated(ts, p, lib, nowMs, pick, pick2)), EtwFirst(s, p, lib, nowMs))
  {
    hide Created, EtwAddress, CoreAddress, CoreEnter, CoreJoin, SameCore, Run;
    SameCoreSelf(s);
    AddressCore(s, s, lib, p.ptr, nowMs, pick2);
    EtwAddressPast(s, lib, p.ptr, nowMs, pick2);
    var a := EtwAddress(s, lib, p.ptr, nowMs, pick2);
    EnteredAt(CoreAddress(s, lib, p.ptr, nowMs), p);
    CreatedCore(a, CoreAddress(s, lib, p.ptr, nowMs), ts, p, pick);
    RunTwo(s, EtwAddressEvent(lib, p.ptr, nowMs, pick2), CreatedEvent(ts, p, pick));
  }

  lemma SameCoreSelf(s: State)
    ensures SameCore(s, s)
  {
  }

  lemma InvParts(s: State, env: Issued)
    requires Inv(s, env)
    ensures LiveIds(s, env) && Binding(s) && AddrIndex(s)
  {
    hide LocInv, AccountsInv, Ledger, DriverSizes, LogInv, Queue, Maximal, AliasForest;
  }

  lemma InvLoc(s: State, env: Issued)
    requires Inv(s, env)
    ensures LocInv(s)
  {
    hide JoinInv, LocInv, AccountsInv, Ledger, DriverSizes, LogInv;
  }

  lemma FreshFirst(s: State, env: Issued, es: seq<Event>)
    requires Fair(s, env, es) && |es| == 2 && es[0].CreatedEvent?
    ensures FreshObject(s, env, es[0].p)
  {
    assert es[..1][..0] == [] && es[..1][0] == es[0];
    assert Fair(s, env, es[..1]);
    hide FreshObject;
  }

  lemma UnseenFresh(s: State, env: Issued, id: nat)
    requires LiveIds(s, env) && Binding(s) && id != 0 && id !in env.ids
    ensures Unseen(s, id) && 0 !in s.live
  {
  }

  // ---- A contested address ----------------------------------------------------------------------

  // ETW saw a heap at address 16 whose destruction it never reported, and then a resource whose address it has not
  // reported yet.
  function StaleHeap(pick: Order): seq<Event> {
    [EtwCreatedEvent(0, 1, Etw.ObjType.Heap, 0, Etw.Local)] + [EtwAddressEvent(1, 16, 1, pick)]
    + [EtwCreatedEvent(0, 2, Etw.ObjType.Resource, 0, Etw.Local)]
  }

  const NEW_HEAP := CreatedPayload(1, 64, 0, 16, 1, ObjectType.Heap, HeapObject)

  lemma RunMore(es: seq<Event>, e: Event)
    requires Fair(INITIAL, NOTHING_ISSUED, es)
    requires Allowed(Run(INITIAL, es), Issuing(INITIAL, NOTHING_ISSUED, es), e)
    ensures Fair(INITIAL, NOTHING_ISSUED, es + [e])
    ensures Run(INITIAL, es + [e]) == Step(Run(INITIAL, es), e)
    ensures Issuing(INITIAL, NOTHING_ISSUED, es + [e])
            == Next(Run(INITIAL, es), Issuing(INITIAL, NOTHING_ISSUED, es), e)
  {
    hide Step, Allowed, Next;
    assert (es + [e])[..|es|] == es;
  }

  function AfterStaleHeap(pick: Order): State {
    var s := EtwCreated(INITIAL, 0, 1, Etw.ObjType.Heap, 0, Etw.Local);
    EtwCreated(EtwAddress(s, 1, 16, 1, pick), 0, 2, Etw.ObjType.Resource, 0, Etw.Local)
  }

  lemma StaleHeapRun(pick: Order)
    requires Enumerates(pick)
    ensures Fair(INITIAL, NOTHING_ISSUED, StaleHeap(pick)) && Run(INITIAL, StaleHeap(pick)) == AfterStaleHeap(pick)
  {
    var e0, e1 := EtwCreatedEvent(0, 1, Etw.ObjType.Heap, 0, Etw.Local), EtwAddressEvent(1, 16, 1, pick);
    var e2 := EtwCreatedEvent(0, 2, Etw.ObjType.Resource, 0, Etw.Local);
    hide EtwCreated, EtwAddress, Enumerates, IsReReport;
    RunMore([], e0);
    assert [] + [e0] == [e0];
    hide Run, Fair, Issuing;
    RunMore([e0], e1);
    RunMore([e0] + [e1], e2);
  }

  lemma StaleHeapConfused(pick: Order)
    ensures Confused(AfterStaleHeap(pick), NEW_HEAP, 2)
  {
    hide TicksToNs, AddDriver, Relocate;
  }

  // Such an address is reachable: if a heap is created there, the order of the two messages matters.
  lemma StaleHeapIsContested(pick: Order)
    requires Enumerates(pick)
    ensures Fair(INITIAL, NOTHING_ISSUED, StaleHeap(pick))
    ensures Confused(Run(INITIAL, StaleHeap(pick)), NEW_HEAP, 2)
  {
    hide Fair, Run, AfterStaleHeap, Confused;
    StaleHeapRun(pick);
    StaleHeapConfused(pick);
  }
}
