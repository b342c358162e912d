// Every event keeps the sidecar log faithful.

module JoinLogSteps {
  import opened Wire
  import opened Timeline
  import opened JoinState
  import opened JoinSteps
  import opened JoinInvariants
  import opened JoinPipe
  import opened JoinEtw
  import opened SidecarReader
  import opened JoinLog
  import Etw

  // ---- Steps that bind nothing ------------------------------------------------------------------

  // No binding changes, and records only get more used up.
  ghost predicate SameBinding(s: State, t: State) {
    && t.live.Keys == s.live.Keys && (forall i | i in s.live :: t.live[i].etwKey == s.live[i].etwKey)
    && t.etw.Keys <= s.etw.Keys && (forall k | k in t.etw && Spent(s, k) :: Spent(t, k))
    && t.stats.binds == s.stats.binds && t.stats.lateMatches == s.stats.lateMatches
  }

  lemma QuietKeepsLog(s: State, t: State, env: Issued, ids: set<nat>)
    requires LogInv(s, env) && SameBinding(s, t) && LocLog(t.live, t.log) && Quiet(s.log, t.log, ids) && ids <= env.ids
    ensures LogInv(t, env)
  {
    hide Read, LocLog, Spent;
  }

  lemma SpentMono(s: State, t: State)
    requires t.ix.byAddr == s.ix.byAddr && t.etw.Keys <= s.etw.Keys
    requires forall k | k in t.etw ::
               t.etw[k].address == s.etw[k].address && t.etw[k].boundId == s.etw[k].boundId &&
               (s.etw[k].orphanTs != 0 ==> t.etw[k].orphanTs != 0)
    ensures forall k | k in t.etw && Spent(s, k) :: Spent(t, k)
  {
  }

  lemma LiveIssued(s: State, env: Issued)
    requires LiveIds(s, env)
    ensures s.live.Keys <= env.ids
  {
  }

  lemma LocLogSame(live: map<nat, LiveObject>, live2: map<nat, LiveObject>, log: seq<Line>, log2: seq<Line>)
    requires LocLog(live, log) && Read(log2).loc == Read(log).loc && Read(log2).locChanges == Read(log).locChanges
    requires live2.Keys <= live.Keys
    requires forall i | i in live2 :: live2[i].effLoc == live[i].effLoc && live2[i].locReported == live[i].locReported
    ensures LocLog(live2, log2)
  {
    hide Read;
  }

  lemma LateKeepsLog(s: State, env: Issued, key: nat, x: DeadObj, ts: nat)
    requires LogInv(s, env) && Reachable(s, key) && !Settled(s.etw[key]) && key in env.canon
    ensures LogInv(MatchLate(s, key, x, ts), env)
  {
    var t := MatchLate(s, key, x, ts);
    ReadAppend(s.log, BindLine(ts, x.id, key, s.etw[key].kind, s.etw[key].address, true));
    hide Read, LocLog;
    LocLogSame(s.live, t.live, s.log, t.log);
    SpentMono(s, t);
    assert !Spent(s, key) && Spent(t, key);
  }

  lemma TryBindKeepsLog(s: State, env: Issued, key: nat, ts: nat, nowMs: nat, pick: Order)
    requires LiveIds(s, env) && PtrIndex(s) && Binding(s) && AddrIndex(s) && LogInv(s, env)
    requires Reachable(s, key) && key in env.canon
    ensures LogInv(TryBind(s, key, ts, nowMs, pick), env)
  {
    if !Settled(s.etw[key]) {
      var e := s.etw[key];
      hide LogInv, Bind, MatchLate;
      if HasLiveMatch(s, e) {
        BindKeepsLog(s, env, key, s.ix.ptrToId[e.address], ts, pick);
      } else if HasLateMatch(s, e) {
        LateKeepsLog(s, env, key, DeadAt(s, e.address)[FirstMatch(e, DeadAt(s, e.address))], ts);
      } else {
        WaitKeepsLog(s, env, key, nowMs);
      }
    }
  }

  lemma WaitKeepsLog(s: State, env: Issued, key: nat, nowMs: nat)
    requires LogInv(s, env) && key in s.etw
    ensures LogInv(Wait(s, key, nowMs), env)
  {
    var t := Wait(s, key, nowMs);
    SpentMono(s, t);
    hide Read, Spent, LocLog;
    QuietKeepsLog(s, t, env, {});
  }

  lemma ApplyGroupLogs(s: State, key: nat, g: MemLoc, ts: nat, pick: Order)
    requires LocLog(s.live, s.log) && key in s.etw
    ensures var t := ApplyGroup(s, key, g, ts, pick); LocLog(t.live, t.log) && Quiet(s.log, t.log, s.live.Keys)
  {
    hide Relocate, LocLog, Quiet;
    var e := s.etw[key];
    QuietSelf(s.log, s.live.Keys);
    if e.boundId != 0 && e.boundId in s.live {
      RelocateLogs(s.(etw := s.etw[key := e.(group := g)]), e.boundId, g, ts, false, pick);
    }
  }

  lemma ApplyGroupBinding(s: State, key: nat, g: MemLoc, ts: nat, pick: Order)
    requires key in s.etw
    ensures SameBinding(s, ApplyGroup(s, key, g, ts, pick))
  {
    hide Relocate;
    SpentMono(s, ApplyGroup(s, key, g, ts, pick));
  }

  lemma ApplyGroupKeepsLog(s: State, env: Issued, key: nat, g: MemLoc, ts: nat, pick: Order)
    requires LiveIds(s, env) && LogInv(s, env) && key in s.etw
    ensures LogInv(ApplyGroup(s, key, g, ts, pick), env)
  {
    hide ApplyGroup, LocLog, BindLog, AttributionLog, KnownIds, Quiet, SameBinding;
    LiveIssued(s, env);
    ApplyGroupLogs(s, key, g, ts, pick);
    ApplyGroupBinding(s, key, g, ts, pick);
    QuietKeepsLog(s, ApplyGroup(s, key, g, ts, pick), env, s.live.Keys);
  }

  lemma QuietSelf(log: seq<Line>, ids: set<nat>)
    ensures Quiet(log, log, ids)
  {
  }

  lemma ApplySizeLogs(s: State, key: nat, size: nat, ts: nat)
    requires LocLog(s.live, s.log) && key in s.etw
    ensures var t := ApplySize(s, key, size, ts); LocLog(t.live, t.log) && Quiet(s.log, t.log, {})
  {
    hide SubDriver, AddDriver, Read, LocLog, Quiet;
    var t := ApplySize(s, key, size, ts);
    ReadAppend(s.log, DriverSizeLine(ts, s.etw[key].boundId, size));
    LocLogSame(s.live, t.live, s.log, t.log);
    SameReadingQuiet(s.log, t.log);
  }

  lemma ApplySizeBinding(s: State, key: nat, size: nat, ts: nat)
    requires key in s.etw
    ensures SameBinding(s, ApplySize(s, key, size, ts))
  {
    hide SubDriver, AddDriver;
    SpentMono(s, ApplySize(s, key, size, ts));
  }

  lemma ApplySizeKeepsLog(s: State, env: Issued, key: nat, size: nat, ts: nat)
    requires LogInv(s, env) && key in s.etw
    ensures LogInv(ApplySize(s, key, size, ts), env)
  {
    hide ApplySize, LocLog, BindLog, AttributionLog, KnownIds, Quiet, SameBinding;
    ApplySizeLogs(s, key, size, ts);
    ApplySizeBinding(s, key, size, ts);
    QuietKeepsLog(s, ApplySize(s, key, size, ts), env, {});
  }

  lemma SameReadingQuiet(log: seq<Line>, log2: seq<Line>)
    requires Read(log) == Read(log2)
    ensures Quiet(log, log2, {})
  {
  }

  lemma AbsorbKeepsLog(s: State, env: Issued, e: EtwObj, into: nat, pick: Order)
    requires LiveIds(s, env) && LogInv(s, env) && into in s.etw
    ensures LogInv(Absorb(s, e, into, pick), env)
  {
    ApplySizeFrame(s, env, into, e.size, e.createdTs);
    hide ApplySize, ApplyGroup, LogInv;
    ApplySizeKeepsLog(s, env, into, e.size, e.createdTs);
    var t := if e.size != 0 then ApplySize(s, into, e.size, e.createdTs) else s;
    ApplyGroupKeepsLog(t, env, into, e.group, e.createdTs, pick);
  }

  lemma ApplySizeFrame(s: State, env: Issued, key: nat, size: nat, ts: nat)
    requires key in s.etw && LiveIds(s, env)
    ensures var t := ApplySize(s, key, size, ts); t.etw.Keys == s.etw.Keys && LiveIds(t, env)
  {
  }

  // The id that becomes an alias was never attributed, because its record never had an address.
  lemma MergeKeepsLog(s: State, env: Issued, key: nat, into: nat)
    requires LogInv(s, env) && key in s.etw && into in s.etw && key != into && s.etw[key].address == 0
    ensures LogInv(Merge(s, key, into), env.(canon := env.canon - {key}))
  {
    var t := Merge(s, key, into);
    SpentMono(s, t);
    assert !Spent(s, key);
    hide Read, LocLog, Spent, SubDriver;
  }

  lemma SetAddressKeepsLog(s: State, env: Issued, key: nat, addr: nat)
    requires LogInv(s, env) && key in s.etw && s.etw[key].address == 0
    ensures LogInv(SetAddress(s, key, addr), env)
  {
    var e := s.etw[key];
    var t := SetAddress(s, key, addr);
    assert !Spent(s, key);
    assert forall k | k in s.etw && Spent(s, k) :: Spent(t, k);
    ReadAppend(s.log, ObjectLine(e.createdTs, key, e.kind, addr, e.size, e.group));
    hide Read, LocLog, Quiet;
    SameReadingQuiet(s.log, t.log);
    LocLogSame(s.live, t.live, s.log, t.log);
    QuietKeepsLog(s, t, env, {});
  }

  lemma EtwAddressKeepsLog(s: State, env: Issued, lib: nat, addr: nat, pick: Order)
    requires JoinInv(s, env) && LogInv(s, env) && s.etw.Keys <= env.canon
    ensures LogInv(EtwAddress(s, lib, addr, env.nowMs, pick), NextFold(s, env, lib, addr))
  {
    if addr != 0 && Known(s, lib) && s.etw[s.ix.alias[lib]].address == 0 {
      var key := s.ix.alias[lib];
      var ts := s.etw[key].createdTs;
      JoinParts(s, env);
      if IsReReport(s, key, addr) {
        var into := s.ix.byAddr[addr];
        assert s.etw[into].address == addr;
        hide JoinInv, LogInv, TryBind, Fold;
        FoldKeepsJoin(s, env, key, into, pick);
        FoldKeepsLog(s, env, key, into, pick);
        var t := Fold(s, key, into, pick);
        var env2 := env.(canon := env.canon - {key});
        JoinParts(t, env);
        assert Reachable(t, into);
        TryBindKeepsLog(t, env2, into, ts, env.nowMs, pick);
      } else {
        hide LogInv, TryBind, SetAddress;
        SetAddressKeepsLog(s, env, key, addr);
        AddressedKeeps(s, SetAddress(s, key, addr), env, key, addr) by { SetAddressShape(s, key, addr); }
        TryBindKeepsLog(SetAddress(s, key, addr), env, key, ts, env.nowMs, pick);
      }
    }
  }

  lemma SetAddressShape(s: State, key: nat, addr: nat)
    requires key in s.etw && s.etw[key].address == 0 && addr != 0
    ensures Addressed(s, SetAddress(s, key, addr), key, addr)
  {
  }

  lemma JoinParts(s: State, env: Issued)
    requires JoinInv(s, env)
    ensures LiveIds(s, env) && PtrIndex(s) && Binding(s) && AddrIndex(s)
  {
  }

  lemma FoldKeepsLog(s: State, env: Issued, key: nat, into: nat, pick: Order)
    requires JoinInv(s, env) && LogInv(s, env) && key in s.etw && into in s.etw && key != into
    requires s.etw[key].address == 0
    ensures LogInv(Fold(s, key, into, pick), env.(canon := env.canon - {key}))
  {
    JoinParts(s, env);
    hide JoinInv, LogInv, Absorb, Merge, Binding, AddrIndex, PtrIndex, LiveIds;
    var s1 := CountDuplicate(s);
    StatsKeepJoin(s, s1, env);
    JoinParts(s1, env);
    StatsKeepLog(s, s1, env);
    AbsorbKeepsLog(s1, env, s.etw[key], into, pick);
    AbsorbKeepsOthers(s1, s.etw[key], into, key, pick);
    MergeKeepsLog(Absorb(s1, s.etw[key], into, pick), env, key, into);
  }

  lemma AbsorbKeepsOthers(s: State, e: EtwObj, into: nat, key: nat, pick: Order)
    requires key in s.etw && into in s.etw && key != into
    ensures Absorb(s, e, into, pick).etw[key] == s.etw[key]
  {
    hide Relocate, SubDriver, AddDriver;
  }

  lemma StatsKeepLog(s: State, t: State, env: Issued)
    requires LogInv(s, env) && t.live == s.live && t.etw == s.etw && t.ix == s.ix && t.log == s.log
    requires t.stats.binds == s.stats.binds && t.stats.lateMatches == s.stats.lateMatches
    ensures LogInv(t, env)
  {
    SpentMono(s, t);
    hide Read, LocLog, Spent;
  }

  lemma EtwCreatedKeepsLog(s: State, env: Issued, abs: int, lib: nat, kind: Etw.ObjType, size: nat, group: Etw.Group)
    requires Forest(s, env) && LogInv(s, env) && env.canon <= env.libs && lib !in env.libs
    ensures LogInv(EtwCreated(s, abs, lib, kind, size, group), NextLib(env, lib))
  {
    var t := EtwCreated(s, abs, lib, kind, size, group);
    assert LeadsTo(s, lib, lib) <==> InClass(s, lib, lib);
    assert forall k | k in s.etw && Spent(s, k) :: Spent(t, k);
    hide Read, LocLog, Spent, ConvTs, AddDriver, Forest;
  }

  lemma EtwDestroyedKeepsLog(s: State, env: Issued, abs: int, lib: nat)
    requires LiveIds(s, env) && Binding(s) && Forest(s, env) && LogInv(s, env)
    ensures LogInv(EtwDestroyed(s, abs, lib), env)
  {
    if Known(s, lib) {
      EtwDestroyedDies(s, env, abs, lib);
      EtwDestroyedLog(s, abs, lib);
      hide EtwDestroyed;
      DiedKeepsLog(s, EtwDestroyed(s, abs, lib), env, s.ix.alias[lib], ConvTs(s.tb, abs));
    }
  }

  lemma DiedKeepsLog(s: State, t: State, env: Issued, key: nat, ts: nat)
    requires LiveIds(s, env) && Binding(s) && AddresslessBlank(s) && LogInv(s, env) && Died(s, t, key)
    requires t.stats == s.stats
    requires t.log == if s.etw[key].address != 0 then s.log + [ObjectDestroyedLine(ts, key)] else s.log
    ensures LogInv(t, env)
  {
    DiedBindLog(s, t, key, ts);
    DiedLocLog(s, t, key, ts);
    DiedAttribution(s, t, env, key, ts);
  }

  lemma DiedLocLog(s: State, t: State, key: nat, ts: nat)
    requires LocLog(s.live, s.log) && Died(s, t, key)
    requires t.log == if s.etw[key].address != 0 then s.log + [ObjectDestroyedLine(ts, key)] else s.log
    ensures LocLog(t.live, t.log)
  {
    hide Read, LocLog;
    ReadAppend(s.log, ObjectDestroyedLine(ts, key));
    LocLogSame(s.live, t.live, s.log, t.log);
  }

  lemma DiedAttribution(s: State, t: State, env: Issued, key: nat, ts: nat)
    requires AttributionLog(s, env) && KnownIds(s, env) && Died(s, t, key) && t.stats == s.stats
    requires t.log == if s.etw[key].address != 0 then s.log + [ObjectDestroyedLine(ts, key)] else s.log
    ensures AttributionLog(t, env) && KnownIds(t, env)
  {
    DiedSpent(s, t, key);
    hide Read, Spent;
    ReadAppend(s.log, ObjectDestroyedLine(ts, key));
  }

  lemma EtwDestroyedLog(s: State, abs: int, lib: nat)
    requires Known(s, lib)
    ensures var key, t := s.ix.alias[lib], EtwDestroyed(s, abs, lib);
            && t.stats == s.stats
            && t.log == if s.etw[key].address != 0 then s.log + [ObjectDestroyedLine(ConvTs(s.tb, abs), key)] else s.log
  {
  }

  lemma DiedBindLog(s: State, t: State, key: nat, ts: nat)
    requires Binding(s) && 0 !in s.live && AddresslessBlank(s) && BindLog(s) && Died(s, t, key)
    requires t.log == if s.etw[key].address != 0 then s.log + [ObjectDestroyedLine(ts, key)] else s.log
    ensures BindLog(t)
  {
    hide Read;
    ReadAppend(s.log, ObjectDestroyedLine(ts, key));
  }

  lemma DiedSpent(s: State, t: State, key: nat)
    requires Died(s, t, key)
    ensures forall k | k in t.etw && Spent(s, k) :: Spent(t, k)
  {
  }

  // ---- Pipe events ------------------------------------------------------------------------------

  lemma EnterKeepsLog(s: State, env: Issued, ts: nat, p: CreatedPayload)
    requires LiveIds(s, env) && LogInv(s, env) && p.id !in env.ids
    ensures LogInv(Enter(Admit(s, p), p.id, ts), NextIds(env, p.id))
  {
    assert p.id !in s.live;
    PtrEnters(s, p);
    var a := IndexPtr(Admit(s, p), p.id);
    ParentEnters(a, p.id);
    var b := IndexParent(a, p.id);
    IndexLog(s, p);
    hide IndexPtr, IndexParent, FirstLoc, Read, LocLog, Quiet, Admit;
    assert b.live - {p.id} == s.live;
    FirstLocLogs(b, p.id, ts);
    EnteredEnters(s, ts, p);
    EnterBindLog(s, FirstLoc(b, p.id, ts), env, p.id);
  }

  lemma IndexLog(s: State, p: CreatedPayload)
    requires p.id !in s.live
    ensures var b := IndexParent(IndexPtr(Admit(s, p), p.id), p.id);
            b.log == s.log && b.stats == s.stats && !b.live[p.id].locReported
  {
  }

  lemma EnterBindLog(s: State, t: State, env: Issued, id: nat)
    requires LogInv(s, env) && id !in env.ids && id in t.live && t.live[id].id == id && Enters(s, t, t.live[id])
    requires Quiet(s.log, t.log, {id}) && LocLog(t.live, t.log) && t.stats == s.stats
    ensures LogInv(t, NextIds(env, id))
  {
    assert forall k | k in s.etw && Spent(s, k) :: Spent(t, k);
    hide Read, Spent, LocLog;
  }

  lemma CreatedKeepsLog(s: State, env: Issued, ts: nat, p: CreatedPayload, pick: Order)
    requires JoinInv(s, env) && LogInv(s, env) && FreshObject(s, env, p) && s.etw.Keys <= env.canon
    ensures LogInv(Created(s, ts, p, pick), NextIds(env, p.id))
  {
    assert p.id !in s.live;
    EnteredEnters(s, ts, p);
    EnterKeepsLog(s, env, ts, p);
    EnteredParents(s, env, ts, p);
    var t := Enter(Admit(s, p), p.id, ts);
    var o := t.live[p.id];
    hide Enter, LogInv, Bind;
    EntersObjects(s, t, env, o);
    EntersRecords(s, t, env, o);
    if o.ptr != 0 && o.ptr in t.ix.byAddr && t.ix.byAddr[o.ptr] in t.etw && CanBind(t.etw[t.ix.byAddr[o.ptr]], o) {
      BindKeepsLog(t, NextIds(env, p.id), t.ix.byAddr[o.ptr], p.id, ts, pick);
    }
  }

  lemma DetachLogs(s: State, env: Issued, id: nat, ts: nat)
    requires Objects(s, env) && Binding(s) && LocLog(s.live, s.log) && Grounded(s.live) && id in s.live
    ensures var d := Detach(s, id, ts);
            && d.live.Keys == s.live.Keys && d.log == s.log && d.stats == s.stats
            && LocLog(d.live, d.log) && Grounded(d.live)
  {
    hide Objects, Binding, Detach, Read, LocLog;
    DetachedShape(s, env, id, ts);
    DetachLog(s, id, ts);
    LocLogSame(s.live, Detach(s, id, ts).live, s.log, s.log);
  }

  lemma DestroyedLogs(s: State, env: Issued, ts: nat, id: nat, pick: Order)
    requires Objects(s, env) && Binding(s) && LocLog(s.live, s.log) && Grounded(s.live) && id in s.live
    ensures var t := Destroyed(s, ts, id, pick);
            LocLog(t.live, t.log) && Quiet(s.log, t.log, s.live.Keys) && t.stats == s.stats
  {
    hide Objects, Binding, Detach, AbandonChildren, Destroyed, Read, LocLog, Quiet, Grounded;
    DestroyedIs(s, id, ts, pick);
    DetachLogs(s, env, id, ts);
    var d := Detach(s, id, ts);
    AbandonLogs(d, id, ts, pick);
    var u := AbandonChildren(d, id, ts, pick);
    LocLogSame(u.live, u.live - {id}, u.log, u.log);
  }

  lemma DestroyedKeepsLog(s: State, env: Issued, ts: nat, id: nat, pick: Order)
    requires Objects(s, env) && Binding(s) && LogInv(s, env) && Grounded(s.live)
    ensures LogInv(Destroyed(s, ts, id, pick), env)
  {
    if id in s.live {
      LiveIssued(s, env);
      hide Objects, Binding, Destroyed, LocLog, BindLog, AttributionLog, KnownIds, Grounded, Quiet, Leaves;
      DestroyedLogs(s, env, ts, id, pick);
      DestroyedLeaves(s, env, id, ts, pick);
      LeavesLog(s, Destroyed(s, ts, id, pick), env, id);
    }
  }

  lemma DetachLog(s: State, id: nat, ts: nat)
    requires id in s.live
    ensures Detach(s, id, ts).log == s.log && Detach(s, id, ts).stats == s.stats
  {
  }

  lemma DestroyedIs(s: State, id: nat, ts: nat, pick: Order)
    requires id in s.live
    ensures var u, t := AbandonChildren(Detach(s, id, ts), id, ts, pick), Destroyed(s, ts, id, pick);
            t.live == u.live - {id} && t.log == u.log && t.stats == u.stats
  {
    hide Detach, AbandonChildren, SubTotals;
  }

  lemma AbandonLogs(s: State, id: nat, ts: nat, pick: Order)
    requires id in s.live && LocLog(s.live, s.log) && Grounded(s.live)
    ensures var t := AbandonChildren(s, id, ts, pick);
            LocLog(t.live, t.log) && Quiet(s.log, t.log, s.live.Keys) && t.stats == s.stats &&
            t.live.Keys == s.live.Keys
  {
    if s.live[id].kind.Heap? && id in s.ix.children {
      FallBackEachLogs(s.(ix := s.ix.(children := s.ix.children - {id})), pick(s.ix.children[id]), ts);
    }
  }

  lemma LeavesLog(s: State, t: State, env: Issued, id: nat)
    requires LogInv(s, env) && id in s.live && Leaves(s, t, id) && s.live.Keys <= env.ids && t.stats == s.stats
    requires LocLog(t.live, t.log) && Quiet(s.log, t.log, s.live.Keys)
    ensures LogInv(t, env)
  {
    assert forall k | k in s.etw && Spent(s, k) :: Spent(t, k);
    hide Read, Spent, LocLog;
  }
}
