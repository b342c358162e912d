// How many library objects there were, what became of them, and what bound pairs agree on about driver sizes.

module JoinLedger {
  import opened Wire
  import opened Timeline
  import opened JoinState
  import opened JoinSteps
  import opened JoinInvariants
  import opened JoinBinding
  import opened JoinPipe
  import opened JoinEtw
  import opened JoinQueue
  import Etw

  // Created = distinct + duplicates; distinct = alive + ended; each record expires at most once.
  ghost predicate Ledger(s: State, env: Issued) {
    && s.etw.Keys <= env.canon <= env.libs
    && s.stats.created == |env.canon| + s.stats.rundownDuplicates
    && |s.etw| + env.ended == |env.canon|
    && |env.expired| == s.stats.pendingExpired && env.expired <= env.canon
    && forall k | k in s.etw :: k in env.expired <==> s.etw[k].expired
  }

  ghost predicate SameLedger(s: State, t: State) {
    && t.etw.Keys == s.etw.Keys && (forall k | k in s.etw :: t.etw[k].expired == s.etw[k].expired)
    && t.stats.created == s.stats.created && t.stats.rundownDuplicates == s.stats.rundownDuplicates
    && t.stats.pendingExpired == s.stats.pendingExpired
  }

  lemma LedgerKept(s: State, t: State, env: Issued)
    requires Ledger(s, env) && SameLedger(s, t)
    ensures Ledger(t, env)
  {
    SameSize(s.etw, t.etw);
  }

  lemma SameSize<V, W>(m: map<nat, V>, n: map<nat, W>)
    requires m.Keys == n.Keys
    ensures |m| == |n|
  {
    assert |m| == |m.Keys| && |n| == |n.Keys|;
  }

  lemma BindLedger(s: State, key: nat, id: nat, ts: nat, pick: Order)
    requires key in s.etw && id in s.live
    ensures SameLedger(s, Bind(s, key, id, ts, pick))
  {
  }

  lemma TryBindLedger(s: State, key: nat, ts: nat, nowMs: nat, pick: Order)
    ensures SameLedger(s, TryBind(s, key, ts, nowMs, pick))
  {
    if key in s.etw && !Settled(s.etw[key]) && HasLiveMatch(s, s.etw[key]) {
      hide Bind;
      BindLedger(s, key, s.ix.ptrToId[s.etw[key].address], ts, pick);
    }
  }

  lemma ApplySizeSame(s: State, key: nat, size: nat, ts: nat)
    requires key in s.etw
    ensures SameLedger(s, ApplySize(s, key, size, ts))
  {
    hide SubDriver, AddDriver;
  }

  lemma ApplyGroupSame(s: State, key: nat, g: MemLoc, ts: nat, pick: Order)
    requires key in s.etw
    ensures SameLedger(s, ApplyGroup(s, key, g, ts, pick))
  {
    hide Relocate;
  }

  lemma AbsorbLedger(s: State, e: EtwObj, into: nat, pick: Order)
    requires into in s.etw
    ensures SameLedger(s, Absorb(s, e, into, pick))
  {
    ApplySizeSame(s, into, e.size, e.createdTs);
    var t := if e.size != 0 then ApplySize(s, into, e.size, e.createdTs) else s;
    ApplyGroupSame(t, into, e.group, e.createdTs, pick);
    hide ApplySize, ApplyGroup;
  }

  lemma CreatedLedger(s: State, ts: nat, p: CreatedPayload, pick: Order)
    requires p.id !in s.live
    ensures SameLedger(s, Created(s, ts, p, pick))
  {
    var a := Admit(s, p);
    EnterLedger(a, p.id, ts);
    hide Enter, Bind;
    var b := Enter(a, p.id, ts);
    var o := b.live[p.id];
    if o.ptr != 0 && o.ptr in b.ix.byAddr && b.ix.byAddr[o.ptr] in b.etw && CanBind(b.etw[b.ix.byAddr[o.ptr]], o) {
      BindLedger(b, b.ix.byAddr[o.ptr], p.id, ts, pick);
    }
  }

  lemma EnterLedger(s: State, id: nat, ts: nat)
    requires id in s.live
    ensures var t := Enter(s, id, ts); id in t.live && t.etw == s.etw && t.stats == s.stats
  {
    hide FirstLoc;
  }

  lemma DestroyedLedger(s: State, ts: nat, id: nat, pick: Order)
    ensures SameLedger(s, Destroyed(s, ts, id, pick))
  {
    if id in s.live {
      DetachedLedger(s, ts, id, pick);
    }
    hide SubTotals, EtwOnDestroyed;
  }

  lemma DetachedLedger(s: State, ts: nat, id: nat, pick: Order)
    requires id in s.live
    ensures SameLedger(s, EtwOnDestroyed(s, id, ts, pick))
  {
    DetachKeepsLedger(s, ts, id);
    hide Detach, FallBackEach;
  }

  lemma DetachKeepsLedger(s: State, ts: nat, id: nat)
    requires id in s.live
    ensures SameLedger(s, Detach(s, id, ts))
  {
    hide SubLoc, DeadAt;
  }

  // One more record, which has not expired.
  lemma LedgerGrows(s: State, t: State, env: Issued, lib: nat)
    requires Ledger(s, env) && lib !in env.libs && lib !in s.etw
    requires t.etw.Keys == s.etw.Keys + {lib} && !t.etw[lib].expired
    requires forall k | k in s.etw :: t.etw[k].expired == s.etw[k].expired
    requires t.stats.created == s.stats.created + 1 && t.stats.rundownDuplicates == s.stats.rundownDuplicates
    requires t.stats.pendingExpired == s.stats.pendingExpired
    ensures Ledger(t, NextLib(env, lib))
  {
    assert |t.etw| == |t.etw.Keys| && |s.etw| == |s.etw.Keys|;
    assert lib !in env.canon && lib !in env.expired;
  }

  // One record less: it was folded into another.
  lemma LedgerFolds(s: State, t: State, env: Issued, key: nat)
    requires Ledger(s, env) && key in s.etw && !s.etw[key].expired
    requires t.etw.Keys == s.etw.Keys - {key}
    requires forall k | k in t.etw :: t.etw[k].expired == s.etw[k].expired
    requires t.stats.created == s.stats.created && t.stats.rundownDuplicates == s.stats.rundownDuplicates + 1
    requires t.stats.pendingExpired == s.stats.pendingExpired
    ensures Ledger(t, env.(canon := env.canon - {key}))
  {
    assert |t.etw| == |t.etw.Keys| && |s.etw| == |s.etw.Keys|;
    assert key in env.canon && key !in env.expired;
  }

  lemma EtwCreatedLedger(s: State, env: Issued, abs: int, lib: nat, kind: Etw.ObjType, size: nat, group: Etw.Group)
    requires Ledger(s, env) && lib !in env.libs && lib !in s.ix.alias
    ensures Ledger(EtwCreated(s, abs, lib, kind, size, group), NextLib(env, lib))
  {
    assert lib !in s.etw by { assert s.etw.Keys <= env.libs; }
    EtwCreatedFields(s, abs, lib, kind, size, group);
    hide Ledger, EtwCreated, NextLib;
    LedgerGrows(s, EtwCreated(s, abs, lib, kind, size, group), env, lib);
  }

  lemma EtwCreatedFields(s: State, abs: int, lib: nat, kind: Etw.ObjType, size: nat, group: Etw.Group)
    requires lib !in s.ix.alias && lib !in s.etw
    ensures var t := EtwCreated(s, abs, lib, kind, size, group);
            && t.etw.Keys == s.etw.Keys + {lib} && !t.etw[lib].expired
            && (forall k | k in s.etw :: t.etw[k].expired == s.etw[k].expired)
            && t.stats == s.stats.(created := s.stats.created + 1)
  {
    hide ConvTs, AddDriver;
  }

  lemma FoldLedger(s: State, env: Issued, key: nat, into: nat, pick: Order)
    requires Ledger(s, env) && key in s.etw && into in s.etw && key != into && !s.etw[key].expired
    ensures Ledger(Fold(s, key, into, pick), env.(canon := env.canon - {key}))
  {
    hide Ledger;
    FoldFields(s, key, into, pick);
    hide Fold;
    LedgerFolds(s, Fold(s, key, into, pick), env, key);
  }

  lemma FoldFields(s: State, key: nat, into: nat, pick: Order)
    requires key in s.etw && into in s.etw && key != into
    ensures var t := Fold(s, key, into, pick);
            && t.etw.Keys == s.etw.Keys - {key}
            && (forall k | k in t.etw :: t.etw[k].expired == s.etw[k].expired)
            && t.stats.created == s.stats.created && t.stats.rundownDuplicates == s.stats.rundownDuplicates + 1
            && t.stats.pendingExpired == s.stats.pendingExpired
  {
    AbsorbLedger(CountDuplicate(s), s.etw[key], into, pick);
    hide Absorb, SubDriver;
  }

  lemma EtwAddressLedger(s: State, env: Issued, lib: nat, addr: nat, nowMs: nat, pick: Order)
    requires Ledger(s, env) && AddresslessBlank(s)
    ensures Ledger(EtwAddress(s, lib, addr, nowMs, pick), NextFold(s, env, lib, addr))
  {
    if addr != 0 && Known(s, lib) && s.etw[s.ix.alias[lib]].address == 0 {
      hide TryBind, Fold, Ledger;
      var key := s.ix.alias[lib];
      var ts := s.etw[key].createdTs;
      if IsReReport(s, key, addr) {
        var into := s.ix.byAddr[addr];
        FoldLedger(s, env, key, into, pick);
        TryBindLedger(Fold(s, key, into, pick), into, ts, nowMs, pick);
        LedgerKept(Fold(s, key, into, pick), EtwAddress(s, lib, addr, nowMs, pick), NextFold(s, env, lib, addr));
      } else {
        LedgerKept(s, SetAddress(s, key, addr), env);
        TryBindLedger(SetAddress(s, key, addr), key, ts, nowMs, pick);
        LedgerKept(SetAddress(s, key, addr), EtwAddress(s, lib, addr, nowMs, pick), env);
      }
    }
  }

  function NextEnd(s: State, env: Issued, lib: nat): Issued {
    if Known(s, lib) then env.(ended := env.ended + 1) else env
  }

  lemma EtwDestroyedLedger(s: State, env: Issued, abs: int, lib: nat)
    requires Ledger(s, env)
    ensures Ledger(EtwDestroyed(s, abs, lib), NextEnd(s, env, lib))
  {
    hide ConvTs, SubDriver, EtwDestroyedIndexes, NoRepeats;
    var t := EtwDestroyed(s, abs, lib);
    if Known(s, lib) { assert t.etw.Keys == s.etw.Keys - {s.ix.alias[lib]}; }
  }

  lemma TickCounts(s: State, env: Issued, nowMs: nat, nowTs: nat)
    requires PendingQueue(s, env) && QueueSorted(s) && env.nowMs <= nowMs
    ensures var t := Tick(s, nowMs, nowTs);
            && t.etw == ExpireAll(s.etw, nowMs)
            && t.stats == s.stats.(pendingExpired := s.stats.pendingExpired + |AllTimedOut(s.etw, nowMs)|)
            && forall k | k in AllTimedOut(s.etw, nowMs) :: !s.etw[k].expired
  {
    ExpireQueueScansAll(s, nowMs);
    PruneFrame(ExpireQueue(s, nowMs), nowTs);
    hide ExpireQueue, Prune, ExpireAll, QueueSorted, NoRepeats;
    forall k | k in AllTimedOut(s.etw, nowMs) ensures !s.etw[k].expired { assert IsPending(s, k); }
  }

  lemma LedgerExpires(s: State, t: State, env: Issued, nowMs: nat)
    requires Ledger(s, env) && t.etw == ExpireAll(s.etw, nowMs)
    requires t.stats == s.stats.(pendingExpired := s.stats.pendingExpired + |AllTimedOut(s.etw, nowMs)|)
    requires forall k | k in AllTimedOut(s.etw, nowMs) :: !s.etw[k].expired
    ensures Ledger(t, NextTick(s, env, nowMs))
  {
    var out := AllTimedOut(s.etw, nowMs);
    forall k | k in out ensures k !in env.expired && k in env.canon {}
    assert |env.expired + out| == |env.expired| + |out|;
    SameSize(s.etw, t.etw);
  }

  // A record that times out now had not expired before.
  lemma TickLedger(s: State, env: Issued, nowMs: nat, nowTs: nat)
    requires Ledger(s, env) && PendingQueue(s, env) && QueueSorted(s) && env.nowMs <= nowMs
    ensures Ledger(Tick(s, nowMs, nowTs), NextTick(s, env, nowMs))
  {
    hide Ledger, Tick, PendingQueue, QueueSorted, ExpireAll, AllTimedOut, NextTick;
    TickCounts(s, env, nowMs, nowTs);
    LedgerExpires(s, Tick(s, nowMs, nowTs), env, nowMs);
  }

  // ---- Driver sizes of bound pairs --------------------------------------------------------------

  lemma BindSizes(s: State, env: Issued, key: nat, id: nat, ts: nat, pick: Order)
    requires LiveIds(s, env) && Binding(s) && DriverSizes(s) && MayBind(s, key, id)
    ensures DriverSizes(Bind(s, key, id, ts, pick))
  {
    var t := Bind(s, key, id, ts, pick);
    BindIsBoundTo(s, key, id, ts, pick);
    BindSizeOf(s, key, id, ts, pick);
    hide Bind;
    forall k | k in t.etw && t.etw[k].boundId != 0 && IsDriverType(t.etw[k].kind)
      ensures t.etw[k].boundId in t.live && t.live[t.etw[k].boundId].driverSize == t.etw[k].size
    {
      if k != key {
        assert k != s.live[id].etwKey && s.etw[k].boundId != id;
      }
    }
  }

  lemma BindSizeOf(s: State, key: nat, id: nat, ts: nat, pick: Order)
    requires key in s.etw && id in s.live
    ensures var t := Bind(s, key, id, ts, pick);
            && t.live.Keys == s.live.Keys && t.etw.Keys == s.etw.Keys
            && (forall i | i in s.live && i != id :: t.live[i].driverSize == s.live[i].driverSize)
            && (IsDriverType(s.etw[key].kind) ==> t.live[id].driverSize == s.etw[key].size)
  {
  }

  // Bound records keep their kind, size and object, and objects their driver size.
  ghost predicate SameSizes(s: State, t: State) {
    forall k | k in t.etw && t.etw[k].boundId != 0 ::
      k in s.etw && s.etw[k].kind == t.etw[k].kind && s.etw[k].size == t.etw[k].size &&
      s.etw[k].boundId == t.etw[k].boundId &&
      (s.etw[k].boundId in s.live ==>
         s.etw[k].boundId in t.live && t.live[s.etw[k].boundId].driverSize == s.live[s.etw[k].boundId].driverSize)
  }

  lemma SizesKept(s: State, t: State)
    requires DriverSizes(s) && SameSizes(s, t)
    ensures DriverSizes(t)
  {
  }

  lemma TryBindSizes(s: State, env: Issued, key: nat, ts: nat, nowMs: nat, pick: Order)
    requires LiveIds(s, env) && PtrIndex(s) && Binding(s) && DriverSizes(s) && Reachable(s, key)
    ensures DriverSizes(TryBind(s, key, ts, nowMs, pick))
  {
    if !Settled(s.etw[key]) {
      hide Bind;
      if HasLiveMatch(s, s.etw[key]) {
        BindSizes(s, env, key, s.ix.ptrToId[s.etw[key].address], ts, pick);
      } else {
        SizesKept(s, TryBind(s, key, ts, nowMs, pick));
      }
    }
  }

  lemma ApplyGroupSizes(s: State, key: nat, g: MemLoc, ts: nat, pick: Order)
    requires DriverSizes(s) && key in s.etw
    ensures DriverSizes(ApplyGroup(s, key, g, ts, pick))
  {
    hide Relocate;
    SizesKept(s, ApplyGroup(s, key, g, ts, pick));
  }

  lemma ApplySizeSizes(s: State, key: nat, size: nat, ts: nat)
    requires Binding(s) && DriverSizes(s) && key in s.etw
    ensures DriverSizes(ApplySize(s, key, size, ts))
  {
    hide AddDriver, SubDriver;
    var t := ApplySize(s, key, size, ts);
    forall k | k in t.etw && t.etw[k].boundId != 0 && IsDriverType(t.etw[k].kind)
      ensures t.etw[k].boundId in t.live && t.live[t.etw[k].boundId].driverSize == t.etw[k].size
    {
      assert k != key ==> s.etw[k].boundId != s.etw[key].boundId;
    }
  }

  lemma AbsorbSizes(s: State, env: Issued, e: EtwObj, into: nat, pick: Order)
    requires JoinInv(s, env) && DriverSizes(s) && into in s.etw
    ensures DriverSizes(Absorb(s, e, into, pick))
  {
    NoZero(s, env);
    hide ApplySize, ApplyGroup, JoinInv, DriverSizes, Binding;
    ApplySizeSizes(s, into, e.size, e.createdTs);
    var t := if e.size != 0 then ApplySize(s, into, e.size, e.createdTs) else s;
    ApplySizeKeys(s, into, e.size, e.createdTs);
    ApplyGroupSizes(t, into, e.group, e.createdTs, pick);
  }

  lemma ApplySizeKeys(s: State, key: nat, size: nat, ts: nat)
    requires key in s.etw
    ensures ApplySize(s, key, size, ts).etw.Keys == s.etw.Keys
  {
    hide AddDriver, SubDriver;
  }

  lemma FoldSizes(s: State, env: Issued, key: nat, into: nat, pick: Order)
    requires JoinInv(s, env) && DriverSizes(s) && key in s.etw && into in s.etw && key != into
    ensures DriverSizes(Fold(s, key, into, pick))
  {
    hide JoinInv, DriverSizes, Absorb;
    StatsKeepJoin(s, CountDuplicate(s), env);
    SizesKept(s, CountDuplicate(s)) by { assert SameSizes(s, CountDuplicate(s)); }
    AbsorbSizes(CountDuplicate(s), env, s.etw[key], into, pick);
    var t := Absorb(CountDuplicate(s), s.etw[key], into, pick);
    hide CountDuplicate, SubDriver;
    SizesKept(t, Merge(t, key, into));
  }

  lemma EtwAddressSizes(s: State, env: Issued, lib: nat, addr: nat, nowMs: nat, pick: Order)
    requires JoinInv(s, env) && DriverSizes(s)
    ensures DriverSizes(EtwAddress(s, lib, addr, nowMs, pick))
  {
    if addr != 0 && Known(s, lib) && s.etw[s.ix.alias[lib]].address == 0 {
      hide TryBind, Fold, DriverSizes;
      var key := s.ix.alias[lib];
      var ts := s.etw[key].createdTs;
      if IsReReport(s, key, addr) {
        var into := s.ix.byAddr[addr];
        assert s.etw[into].address == addr;
        hide JoinInv;
        FoldSizes(s, env, key, into, pick);
        FoldKeepsJoin(s, env, key, into, pick);
        JoinFacts(Fold(s, key, into, pick), env);
        TryBindSizes(Fold(s, key, into, pick), env, into, ts, nowMs, pick);
      } else {
        SizesKept(s, SetAddress(s, key, addr));
        hide Objects, Records, Queue, Maximal, MaximalBut;
        AddressedKeeps(s, SetAddress(s, key, addr), env, key, addr);
        RecordFacts(SetAddress(s, key, addr), env);
        TryBindSizes(SetAddress(s, key, addr), env, key, ts, nowMs, pick);
      }
    }
  }

  lemma RecordFacts(s: State, env: Issued)
    requires Objects(s, env) && Records(s, env)
    ensures LiveIds(s, env) && PtrIndex(s) && Binding(s)
  {
  }

  lemma JoinFacts(s: State, env: Issued)
    requires JoinInv(s, env)
    ensures LiveIds(s, env) && PtrIndex(s) && Binding(s)
  {
  }

  lemma CreatedSizes(s: State, env: Issued, ts: nat, p: CreatedPayload, pick: Order)
    requires JoinInv(s, env) && DriverSizes(s) && FreshObject(s, env, p)
    ensures DriverSizes(Created(s, ts, p, pick))
  {
    assert p.id !in s.live;
    EnteredEnters(s, ts, p);
    EnteredParents(s, env, ts, p);
    hide Enter, Bind;
    var t := Enter(Admit(s, p), p.id, ts);
    var o := t.live[p.id];
    SizesKept(s, t);
    EntersObjects(s, t, env, o);
    EntersRecords(s, t, env, o);
    if o.ptr != 0 && o.ptr in t.ix.byAddr && t.ix.byAddr[o.ptr] in t.etw && CanBind(t.etw[t.ix.byAddr[o.ptr]], o) {
      BindSizes(t, NextIds(env, p.id), t.ix.byAddr[o.ptr], p.id, ts, pick);
    }
  }

  lemma DestroyedSizes(s: State, t: State, id: nat)
    requires DriverSizes(s) && id in s.live && Leaves(s, t, id)
    requires forall i | i in t.live :: t.live[i].driverSize == s.live[i].driverSize
    ensures DriverSizes(t)
  {
    SizesKept(s, t);
  }

  lemma DestroyedKeepsSizes(s: State, env: Issued, ts: nat, id: nat, pick: Order)
    requires Objects(s, env) && Binding(s) && DriverSizes(s)
    ensures DriverSizes(Destroyed(s, ts, id, pick))
  {
    if id in s.live {
      DestroyedLeaves(s, env, id, ts, pick);
      DestroyedDriverSizes(s, ts, id, pick);
      hide Destroyed;
      DestroyedSizes(s, Destroyed(s, ts, id, pick), id);
    }
  }

  lemma DestroyedDriverSizes(s: State, ts: nat, id: nat, pick: Order)
    requires id in s.live
    ensures var t := Destroyed(s, ts, id, pick);
            t.live.Keys <= s.live.Keys && forall i | i in t.live :: t.live[i].driverSize == s.live[i].driverSize
  {
    hide SubTotals, SubLoc, FallBackEach, DeadAt;
  }
}
