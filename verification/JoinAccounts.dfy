// The incrementally maintained totals equal a recount after every event, and no subtraction ever clamps.

module JoinAccounts {
  import opened Wire
  import opened Tallies
  import opened Timeline
  import opened JoinState
  import opened JoinSteps
  import opened JoinInvariants
  import opened JoinPipe
  import Etw

  // ---- Totals of live objects -------------------------------------------------------------------

  function AllocCellOf(o: LiveObject): AllocCell {
    AllocCell(HeapBucket(o.heapType), o.alloc)
  }

  ghost function BytesWeight(c: AllocCell, o: LiveObject): nat { if c == AllocCellOf(o) then o.size else 0 }
  ghost function CountWeight(c: AllocCell, o: LiveObject): nat { if c == AllocCellOf(o) then 1 else 0 }
  ghost function TypeWeight(k: ObjectType, o: LiveObject): nat { if k == o.kind then 1 else 0 }
  ghost function SizeWeight(u: (), o: LiveObject): nat { o.size }

  ghost predicate TotalsInv(t: MemoryTotals, live: map<nat, LiveObject>) {
    && Tallied(t.bytes, live, BytesWeight)
    && Tallied(t.counts, live, CountWeight)
    && Tallied(t.perType, live, TypeWeight)
    && t.liveBytes == Sum(live, SizeWeight, ())
  }

  lemma AddTotalsInv(t: MemoryTotals, live: map<nat, LiveObject>, id: nat, o: LiveObject)
    requires TotalsInv(t, live) && id !in live
    ensures TotalsInv(AddTotals(t, o), live[id := o])
  {
    hide Tallied, Sum, HeapBucket;
    TallyAdd(t.bytes, live, BytesWeight, id, o, AllocCellOf(o), o.size);
    TallyAdd(t.counts, live, CountWeight, id, o, AllocCellOf(o), 1);
    TallyAdd(t.perType, live, TypeWeight, id, o, o.kind, 1);
    SumPut(live, SizeWeight, (), id, o);
    assert live - {id} == live;
  }

  // Every guard of the subtraction holds.
  lemma SubTotalsInv(t: MemoryTotals, live: map<nat, LiveObject>, id: nat)
    requires TotalsInv(t, live) && id in live
    ensures TotalsInv(SubTotals(t, live[id]), live - {id})
    ensures At(t.bytes, AllocCellOf(live[id])) >= live[id].size && At(t.counts, AllocCellOf(live[id])) >= 1
    ensures At(t.perType, live[id].kind) >= 1 && t.liveBytes >= live[id].size
  {
    var o := live[id];
    TallySub(t.bytes, live, BytesWeight, id, AllocCellOf(o), o.size);
    TallySub(t.counts, live, CountWeight, id, AllocCellOf(o), 1);
    TallySub(t.perType, live, TypeWeight, id, o.kind, 1);
    SumRemove(live, SizeWeight, (), id);
  }

  // Steps that neither add nor remove objects.
  ghost predicate SameCatalog(s: State, t: State) {
    && t.totals == s.totals && t.live.Keys == s.live.Keys
    && forall i | i in s.live :: SameStatic(s.live[i], t.live[i])
  }

  lemma CatalogKeepsTotals(s: State, t: State)
    requires TotalsInv(s.totals, s.live) && SameCatalog(s, t)
    ensures TotalsInv(t.totals, t.live)
  {
    TallySame(s.totals.bytes, s.live, t.live, BytesWeight);
    TallySame(s.totals.counts, s.live, t.live, CountWeight);
    TallySame(s.totals.perType, s.live, t.live, TypeWeight);
    SumSame(s.live, t.live, SizeWeight, ());
  }

  // Row h of the table of bytes by location, and of the one by allocation kind without its first column.
  ghost function RowByLoc(live: map<nat, LiveObject>, h: nat): nat {
    Sum(live, LocWeight, LocCell(h, MemLoc.Unknown)) + Sum(live, LocWeight, LocCell(h, Vram))
    + Sum(live, LocWeight, LocCell(h, Sys))
  }

  ghost function RowByAlloc(live: map<nat, LiveObject>, h: nat): nat {
    Sum(live, BytesWeight, AllocCell(h, Committed)) + Sum(live, BytesWeight, AllocCell(h, Placed))
    + Sum(live, BytesWeight, AllocCell(h, Reserved)) + Sum(live, BytesWeight, AllocCell(h, HeapObject))
  }

  ghost function RowShare(o: LiveObject, h: nat): nat {
    if HeapBucket(o.heapType) == h && !o.alloc.NoAllocation? then o.size else 0
  }

  lemma RowByLocStep(live: map<nat, LiveObject>, h: nat, i: nat)
    requires i in live
    ensures RowByLoc(live, h) == RowByLoc(live - {i}, h) + RowShare(live[i], h)
  {
    var l := live[i].effLoc;
    assert l.Unknown? || l.Vram? || l.Sys?;
    SumRemove(live, LocWeight, LocCell(h, MemLoc.Unknown), i);
    SumRemove(live, LocWeight, LocCell(h, Vram), i);
    SumRemove(live, LocWeight, LocCell(h, Sys), i);
  }

  lemma RowByAllocStep(live: map<nat, LiveObject>, h: nat, i: nat)
    requires i in live
    ensures RowByAlloc(live, h) == RowByAlloc(live - {i}, h) + RowShare(live[i], h)
  {
    SumRemove(live, BytesWeight, AllocCell(h, Committed), i);
    SumRemove(live, BytesWeight, AllocCell(h, Placed), i);
    SumRemove(live, BytesWeight, AllocCell(h, Reserved), i);
    SumRemove(live, BytesWeight, AllocCell(h, HeapObject), i);
  }

  // The two rows add up to the same bytes, whatever the locations.
  lemma {:induction false} RowsBalance(live: map<nat, LiveObject>, h: nat)
    ensures RowByLoc(live, h) == RowByAlloc(live, h)
    decreases |live|
  {
    if |live| > 0 {
      var i := Pick(live);
      assert live.Keys == (live - {i}).Keys + {i};
      RowByLocStep(live, h, i);
      RowByAllocStep(live, h, i);
      hide RowByLoc, RowByAlloc;
      RowsBalance(live - {i}, h);
    }
  }

  // ---- ETW records by type ----------------------------------------------------------------------

  ghost function KindWeight(k: Etw.ObjType, e: EtwObj): nat { if k == e.kind then 1 else 0 }
  ghost function SizedWeight(k: Etw.ObjType, e: EtwObj): nat { if k == e.kind && Sized(e) then 1 else 0 }
  ghost function DriverWeight(k: Etw.ObjType, e: EtwObj): nat { if k == e.kind && Sized(e) then e.size else 0 }

  ghost predicate DriversInv(d: DriverTables, etw: map<nat, EtwObj>) {
    && Tallied(d.live, etw, KindWeight)
    && Tallied(d.sized, etw, SizedWeight)
    && Tallied(d.bytes, etw, DriverWeight)
  }

  lemma AddDriverInv(d: DriverTables, etw: map<nat, EtwObj>, key: nat, e: EtwObj)
    requires DriversInv(d, etw) && key !in etw
    ensures DriversInv(AddDriver(d, e), etw[key := e])
  {
    TallyAdd(d.live, etw, KindWeight, key, e, e.kind, 1);
    TallyAdd(d.sized, etw, SizedWeight, key, e, e.kind, if Sized(e) then 1 else 0);
    TallyAdd(d.bytes, etw, DriverWeight, key, e, e.kind, if Sized(e) then e.size else 0);
  }

  lemma SubDriverInv(d: DriverTables, etw: map<nat, EtwObj>, key: nat)
    requires DriversInv(d, etw) && key in etw
    ensures DriversInv(SubDriver(d, etw[key]), etw - {key})
    ensures At(d.live, etw[key].kind) >= 1
    ensures Sized(etw[key]) ==> At(d.sized, etw[key].kind) >= 1 && At(d.bytes, etw[key].kind) >= etw[key].size
  {
    var e := etw[key];
    TallySub(d.live, etw, KindWeight, key, e.kind, 1);
    TallySub(d.sized, etw, SizedWeight, key, e.kind, if Sized(e) then 1 else 0);
    TallySub(d.bytes, etw, DriverWeight, key, e.kind, if Sized(e) then e.size else 0);
  }

  ghost predicate SameKinds(s: State, t: State) {
    && t.drivers == s.drivers && t.etw.Keys == s.etw.Keys
    && forall k | k in s.etw :: t.etw[k].kind == s.etw[k].kind && t.etw[k].size == s.etw[k].size
  }

  lemma KindsKeepDrivers(s: State, t: State)
    requires DriversInv(s.drivers, s.etw) && SameKinds(s, t)
    ensures DriversInv(t.drivers, t.etw)
  {
    TallySame(s.drivers.live, s.etw, t.etw, KindWeight);
    TallySame(s.drivers.sized, s.etw, t.etw, SizedWeight);
    TallySame(s.drivers.bytes, s.etw, t.etw, DriverWeight);
  }

  // A size update replaces the record in all three tables.
  lemma ApplySizeDrivers(s: State, key: nat, size: nat, ts: nat)
    requires DriversInv(s.drivers, s.etw) && key in s.etw
    ensures var t := ApplySize(s, key, size, ts); DriversInv(t.drivers, t.etw)
  {
    var e := s.etw[key];
    var f := e.(size := size);
    hide DriversInv, AddDriver, SubDriver;
    SubDriverInv(s.drivers, s.etw, key);
    AddDriverInv(SubDriver(s.drivers, e), s.etw - {key}, key, f);
    assert (s.etw - {key})[key := f] == s.etw[key := f];
  }

  // ---- What each event does to the two catalogues -----------------------------------------------

  lemma BindCatalog(s: State, key: nat, id: nat, ts: nat, pick: Order)
    requires key in s.etw && id in s.live
    ensures SameCatalog(s, Bind(s, key, id, ts, pick)) && SameKinds(s, Bind(s, key, id, ts, pick))
  {
  }

  lemma TryBindCatalog(s: State, key: nat, ts: nat, nowMs: nat, pick: Order)
    ensures SameCatalog(s, TryBind(s, key, ts, nowMs, pick)) && SameKinds(s, TryBind(s, key, ts, nowMs, pick))
  {
    if key in s.etw && !Settled(s.etw[key]) && HasLiveMatch(s, s.etw[key]) {
      hide Bind;
      BindCatalog(s, key, s.ix.ptrToId[s.etw[key].address], ts, pick);
    }
  }

  lemma ApplyGroupCatalog(s: State, key: nat, g: MemLoc, ts: nat, pick: Order)
    requires key in s.etw
    ensures SameCatalog(s, ApplyGroup(s, key, g, ts, pick)) && SameKinds(s, ApplyGroup(s, key, g, ts, pick))
  {
    hide Relocate;
  }

  lemma ApplySizeCatalog(s: State, key: nat, size: nat, ts: nat)
    requires key in s.etw
    ensures var t := ApplySize(s, key, size, ts); SameCatalog(s, t) && t.etw.Keys == s.etw.Keys
  {
    hide SubDriver, AddDriver;
  }

  ghost predicate AccountsInv(s: State) {
    TotalsInv(s.totals, s.live) && DriversInv(s.drivers, s.etw)
  }

  lemma CreatedKeepsAccounts(s: State, ts: nat, p: CreatedPayload, pick: Order)
    requires AccountsInv(s) && p.id !in s.live
    ensures AccountsInv(Created(s, ts, p, pick))
  {
    var a := Admit(s, p);
    AddTotalsInv(s.totals, s.live, p.id, NewObject(p));
    hide TotalsInv, DriversInv, AddTotals, JoinNew, Enter;
    EnterCatalog(a, p.id, ts);
    var b := Enter(a, p.id, ts);
    JoinNewCatalog(b, p.id, ts, pick);
    CatalogKeepsTotals(a, b);
    CatalogKeepsTotals(b, JoinNew(b, p.id, ts, pick));
    KindsKeepDrivers(a, b);
    KindsKeepDrivers(b, JoinNew(b, p.id, ts, pick));
  }

  lemma EnterCatalog(s: State, id: nat, ts: nat)
    requires id in s.live
    ensures var t := Enter(s, id, ts); id in t.live && SameCatalog(s, t) && SameKinds(s, t)
  {
    hide FirstLoc;
  }

  lemma JoinNewCatalog(s: State, id: nat, ts: nat, pick: Order)
    requires id in s.live
    ensures SameCatalog(s, JoinNew(s, id, ts, pick)) && SameKinds(s, JoinNew(s, id, ts, pick))
  {
    var o := s.live[id];
    if o.ptr != 0 && o.ptr in s.ix.byAddr && s.ix.byAddr[o.ptr] in s.etw && CanBind(s.etw[s.ix.byAddr[o.ptr]], o) {
      hide Bind;
      BindCatalog(s, s.ix.byAddr[o.ptr], id, ts, pick);
    }
  }

  lemma EtwOnDestroyedCatalog(s: State, env: Issued, ts: nat, id: nat, pick: Order)
    requires Objects(s, env) && Binding(s) && id in s.live
    ensures var t := EtwOnDestroyed(s, id, ts, pick); SameCatalog(s, t) && SameKinds(s, t)
  {
    hide Objects, Binding, Detach, AbandonChildren;
    DetachedShape(s, env, id, ts);
    DetachAccounts(s, id, ts);
    AbandonShape(Detach(s, id, ts), id, ts, pick);
  }

  lemma DestroyedKeepsAccounts(s: State, env: Issued, ts: nat, id: nat, pick: Order)
    requires AccountsInv(s) && Objects(s, env) && Binding(s)
    ensures AccountsInv(Destroyed(s, ts, id, pick))
  {
    if id in s.live {
      hide Objects, Binding, TotalsInv, DriversInv, SubTotals, EtwOnDestroyed;
      EtwOnDestroyedCatalog(s, env, ts, id, pick);
      var t := EtwOnDestroyed(s, id, ts, pick);
      CatalogKeepsTotals(s, t);
      KindsKeepDrivers(s, t);
      SubTotalsInv(t.totals, t.live, id);
    }
  }

  lemma DetachAccounts(s: State, id: nat, ts: nat)
    requires id in s.live
    ensures var t := Detach(s, id, ts); t.totals == s.totals && t.drivers == s.drivers
  {
  }

  lemma EtwCreatedKeepsAccounts(s: State, env: Issued, abs: int, lib: nat, kind: Etw.ObjType, size: nat,
                                group: Etw.Group)
    requires AccountsInv(s) && AliasForest(s, env) && lib !in env.libs
    ensures AccountsInv(EtwCreated(s, abs, lib, kind, size, group))
  {
    assert LeadsTo(s, lib, lib) <==> InClass(s, lib, lib);
    hide ConvTs, AddDriver, TotalsInv, DriversInv;
    var e := EtwObj(kind, 0, size, FromGroup(group), ConvTs(s.tb, abs), 0, 0, 0, false, []);
    AddDriverInv(s.drivers, s.etw, lib, e);
  }

  lemma AbsorbKeepsAccounts(s: State, e: EtwObj, into: nat, pick: Order)
    requires AccountsInv(s) && into in s.etw
    ensures AccountsInv(Absorb(s, e, into, pick))
  {
    hide ApplySize, ApplyGroup, TotalsInv, DriversInv;
    ApplySizeCatalog(s, into, e.size, e.createdTs);
    ApplySizeDrivers(s, into, e.size, e.createdTs);
    var t := if e.size != 0 then ApplySize(s, into, e.size, e.createdTs) else s;
    var t1 := ApplySize(s, into, e.size, e.createdTs);
    CatalogKeepsTotals(s, t1);
    ApplyGroupCatalog(t, into, e.group, e.createdTs, pick);
    CatalogKeepsTotals(t, ApplyGroup(t, into, e.group, e.createdTs, pick));
    KindsKeepDrivers(t, ApplyGroup(t, into, e.group, e.createdTs, pick));
  }

  // The record that disappears was counted once and is taken out once.
  lemma MergeKeepsAccounts(s: State, key: nat, into: nat)
    requires AccountsInv(s) && key in s.etw && into in s.etw && key != into
    ensures AccountsInv(Merge(s, key, into))
  {
    SubDriverInv(s.drivers, s.etw, key);
    hide TotalsInv, DriversInv, SubDriver;
    var u := s.(etw := s.etw - {key}, drivers := SubDriver(s.drivers, s.etw[key]));
    KindsKeepDrivers(u, Merge(s, key, into));
  }

  lemma FoldKeepsAccounts(s: State, key: nat, into: nat, pick: Order)
    requires AccountsInv(s) && key in s.etw && into in s.etw && key != into
    ensures AccountsInv(Fold(s, key, into, pick))
  {
    hide Absorb, Merge, TotalsInv, DriversInv;
    var s1 := CountDuplicate(s);
    AbsorbKeepsAccounts(s1, s.etw[key], into, pick);
    MergeKeepsAccounts(Absorb(s1, s.etw[key], into, pick), key, into);
  }

  lemma SetAddressKeepsAccounts(s: State, key: nat, addr: nat)
    requires AccountsInv(s) && key in s.etw
    ensures AccountsInv(SetAddress(s, key, addr))
  {
    hide TotalsInv, DriversInv;
    KindsKeepDrivers(s, SetAddress(s, key, addr));
  }

  lemma EtwAddressKeepsAccounts(s: State, lib: nat, addr: nat, nowMs: nat, pick: Order)
    requires AccountsInv(s)
    ensures AccountsInv(EtwAddress(s, lib, addr, nowMs, pick))
  {
    if addr != 0 && Known(s, lib) && s.etw[s.ix.alias[lib]].address == 0 {
      hide TryBind, Fold, SetAddress, AccountsInv;
      var key := s.ix.alias[lib];
      var ts := s.etw[key].createdTs;
      if IsReReport(s, key, addr) {
        FoldKeepsAccounts(s, key, s.ix.byAddr[addr], pick);
        TryBindKeepsAccounts(Fold(s, key, s.ix.byAddr[addr], pick), s.ix.byAddr[addr], ts, nowMs, pick);
      } else {
        SetAddressKeepsAccounts(s, key, addr);
        TryBindKeepsAccounts(SetAddress(s, key, addr), key, ts, nowMs, pick);
      }
    }
  }

  lemma TryBindKeepsAccounts(s: State, key: nat, ts: nat, nowMs: nat, pick: Order)
    requires AccountsInv(s)
    ensures AccountsInv(TryBind(s, key, ts, nowMs, pick))
  {
    hide TryBind, TotalsInv, DriversInv;
    TryBindCatalog(s, key, ts, nowMs, pick);
    CatalogKeepsTotals(s, TryBind(s, key, ts, nowMs, pick));
    KindsKeepDrivers(s, TryBind(s, key, ts, nowMs, pick));
  }

  lemma EtwDestroyedKeepsAccounts(s: State, abs: int, lib: nat)
    requires AccountsInv(s)
    ensures AccountsInv(EtwDestroyed(s, abs, lib))
  {
    if Known(s, lib) {
      SubDriverInv(s.drivers, s.etw, s.ix.alias[lib]);
      EtwDestroyedCatalog(s, abs, lib);
      hide TotalsInv, DriversInv;
      CatalogKeepsTotals(s, EtwDestroyed(s, abs, lib));
    }
  }

  lemma EtwDestroyedCatalog(s: State, abs: int, lib: nat)
    ensures SameCatalog(s, EtwDestroyed(s, abs, lib))
  {
    hide ConvTs, SubDriver;
  }

  lemma ApplySizeKeepsAccounts(s: State, key: nat, size: nat, ts: nat)
    requires AccountsInv(s) && key in s.etw
    ensures AccountsInv(ApplySize(s, key, size, ts))
  {
    hide ApplySize, TotalsInv, DriversInv;
    ApplySizeCatalog(s, key, size, ts);
    ApplySizeDrivers(s, key, size, ts);
    CatalogKeepsTotals(s, ApplySize(s, key, size, ts));
  }

  lemma ApplyGroupKeepsAccounts(s: State, key: nat, g: MemLoc, ts: nat, pick: Order)
    requires AccountsInv(s) && key in s.etw
    ensures AccountsInv(ApplyGroup(s, key, g, ts, pick))
  {
    hide ApplyGroup, TotalsInv, DriversInv;
    ApplyGroupCatalog(s, key, g, ts, pick);
    CatalogKeepsTotals(s, ApplyGroup(s, key, g, ts, pick));
    KindsKeepDrivers(s, ApplyGroup(s, key, g, ts, pick));
  }
}
