// ETW callbacks and the periodic tick keep the join's invariant.

module JoinEtw {
  import opened JoinState
  import opened JoinSteps
  import opened JoinInvariants
  import opened JoinBinding
  import opened Timeline
  import Etw

  // ---- Creation ---------------------------------------------------------------------------------

  function NextLib(env: Issued, lib: nat): Issued {
    env.(libs := env.libs + {lib}, canon := env.canon + {lib})
  }

  ghost predicate Born(s: State, t: State, lib: nat) {
    && t.live == s.live && t.etw.Keys == s.etw.Keys + {lib}
    && (forall k | k in s.etw && k != lib :: t.etw[k] == s.etw[k])
    && Blank(t.etw[lib]) && t.etw[lib].address == 0
    && t.ix == s.ix.(alias := s.ix.alias[lib := lib])
  }

  lemma BornBinding(s: State, t: State, lib: nat)
    requires Binding(s) && lib != 0 && lib !in s.etw && Born(s, t, lib)
    ensures Binding(t)
  {
  }

  lemma BornForest(s: State, t: State, env: Issued, lib: nat)
    requires Forest(s, env) && lib !in env.libs && lib !in s.etw && Born(s, t, lib)
    ensures Forest(t, NextLib(env, lib))
  {
    assert lib !in s.ix.alias;
    forall l, k ensures LeadsTo(t, l, k) <==> LeadsTo(s, l, k) || l == k == lib {}
    forall l, k ensures InClass(t, l, k) <==> InClass(s, l, k) || l == k == lib {}
  }

  lemma BornQueue(s: State, t: State, env: Issued, lib: nat)
    requires Forest(s, env) && Queue(s, env) && lib !in env.libs && lib !in s.etw && Born(s, t, lib)
    ensures Queue(t, NextLib(env, lib))
  {
    forall k ensures IsPending(s, k) <==> IsPending(t, k) {}
    forall k ensures Reachable(s, k) <==> Reachable(t, k) {}
  }

  lemma BornKeepsJoin(s: State, t: State, env: Issued, lib: nat)
    requires JoinInv(s, env) && lib != 0 && lib !in env.libs && Born(s, t, lib)
    ensures JoinInv(t, NextLib(env, lib))
  {
    assert !LeadsTo(s, lib, lib) && !InClass(s, lib, lib);
    hide Binding, Forest, PendingQueue, QueueSorted, PtrIndex, ChildIndex, ParentsAreHeaps;
    IdentitiesKeepObjects(s, t, NextLib(env, lib));
    BornBinding(s, t, lib);
    BornForest(s, t, env, lib);
    BornQueue(s, t, env, lib);
    forall a ensures NoMissedBind(t, a) { assert NoMissedBind(s, a); }
  }

  lemma EtwCreatedKeepsJoin(s: State, env: Issued, abs: int, lib: nat, kind: Etw.ObjType, size: nat, group: Etw.Group)
    requires JoinInv(s, env) && lib != 0 && lib !in env.libs
    ensures JoinInv(EtwCreated(s, abs, lib, kind, size, group), NextLib(env, lib))
  {
    hide AddDriver, ConvTs;
    assert lib !in s.ix.alias;
    BornKeepsJoin(s, EtwCreated(s, abs, lib, kind, size, group), env, lib);
  }

  // ---- Sizes and groups -------------------------------------------------------------------------

  // Only key's size and group differ, and with the group the own location of its object.
  ghost predicate Regrouped(s: State, t: State, key: nat) {
    && key in s.etw && key in t.etw && t.ix == s.ix
    && t.etw == s.etw[key := t.etw[key]]
    && t.etw[key] == s.etw[key].(size := t.etw[key].size, group := t.etw[key].group)
    && t.live.Keys == s.live.Keys
    && (forall i | i in s.live && i != s.etw[key].boundId :: SameObject(s.live[i], t.live[i]))
    && (s.etw[key].boundId in s.live ==>
          var i := s.etw[key].boundId;
          SameObject(s.live[i].(ownLoc := t.live[i].ownLoc), t.live[i]) &&
          (i != 0 ==> t.live[i].ownLoc == t.etw[key].group))
  }

  lemma ApplySizeRegroups(s: State, key: nat, size: nat, ts: nat)
    requires key in s.etw && Binding(s) && 0 !in s.live
    ensures Regrouped(s, ApplySize(s, key, size, ts), key)
  {
  }

  lemma ApplyGroupRegroups(s: State, key: nat, g: MemLoc, ts: nat, pick: Order)
    requires key in s.etw && Binding(s) && 0 !in s.live
    ensures Regrouped(s, ApplyGroup(s, key, g, ts, pick), key)
  {
  }

  lemma RegroupedKeepsJoin(s: State, t: State, env: Issued, key: nat)
    requires JoinInv(s, env) && Regrouped(s, t, key)
    ensures JoinInv(t, env)
  {
    hide Binding, Forest, PendingQueue, QueueSorted, PtrIndex, ChildIndex;
    IdentitiesKeepObjects(s, t, env);
    RegroupedBinding(s, t, env, key);
    RegroupedForest(s, t, env, key);
    RegroupedQueue(s, t, env, key);
    RegroupedMaximal(s, t, key);
  }

  lemma RegroupedForest(s: State, t: State, env: Issued, key: nat)
    requires Forest(s, env) && Regrouped(s, t, key)
    ensures Forest(t, env)
  {
    hide Forest;
    ForestKept(s, t, env);
  }

  lemma RegroupedMaximal(s: State, t: State, key: nat)
    requires Maximal(s) && Regrouped(s, t, key)
    ensures Maximal(t)
  {
    forall a ensures NoMissedBind(t, a) { assert NoMissedBind(s, a); }
  }

  lemma RegroupedBinding(s: State, t: State, env: Issued, key: nat)
    requires LiveIds(s, env) && Binding(s) && Regrouped(s, t, key)
    ensures Binding(t)
  {
    assert forall k | k in s.etw :: t.etw[k] == s.etw[k].(size := t.etw[k].size, group := t.etw[k].group);
    assert forall i | i in s.live :: t.live[i].etwKey == s.live[i].etwKey && t.live[i].ptr == s.live[i].ptr;
    forall k | k in t.etw && t.etw[k].boundId != 0
      ensures t.etw[k].boundId in t.live && Pair(t.etw[k], t.live[t.etw[k].boundId])
    {
      assert Pair(s.etw[k], s.live[s.etw[k].boundId]);
    }
  }

  lemma RegroupedQueue(s: State, t: State, env: Issued, key: nat)
    requires Queue(s, env) && Regrouped(s, t, key)
    ensures Queue(t, env)
  {
    assert forall k | k in s.etw :: t.etw[k] == s.etw[k].(size := t.etw[k].size, group := t.etw[k].group);
    forall k ensures IsPending(s, k) <==> IsPending(t, k) {}
    forall k ensures Reachable(s, k) <==> Reachable(t, k) {}
  }

  // ---- Addresses --------------------------------------------------------------------------------

  // The address-less record key becomes an alias of into.
  ghost predicate Folded(s: State, t: State, key: nat, into: nat) {
    && key in s.etw && into in s.etw && key != into
    && t.live == s.live
    && t.ix == s.ix.(alias := s.ix.alias[key := into])
    && t.etw.Keys == s.etw.Keys - {key}
    && (forall k | k in t.etw && k != into :: t.etw[k] == s.etw[k])
    && t.etw[into] == s.etw[into].(aliases := s.etw[into].aliases + [key])
  }

  lemma FoldedBinding(s: State, t: State, key: nat, into: nat)
    requires Binding(s) && 0 !in s.live && Folded(s, t, key, into) && s.etw[key].boundId == 0
    ensures Binding(t)
  {
    forall i | i in t.live && t.live[i].etwKey != 0
      ensures t.live[i].etwKey in t.etw && t.etw[t.live[i].etwKey].boundId == i
    {
      assert s.etw[s.live[i].etwKey].boundId == i != 0;
    }
  }

  lemma FoldedForest(s: State, t: State, env: Issued, key: nat, into: nat)
    requires Forest(s, env) && Folded(s, t, key, into) && s.etw[key].address == 0 && s.etw[into].address != 0
    ensures Forest(t, env)
  {
    assert InClass(s, key, key) && LeadsTo(s, key, key);
    assert !InClass(s, key, into);
    forall l | l in s.ix.alias && l != key ensures s.ix.alias[l] != key {
      assert LeadsTo(s, l, key) <==> InClass(s, l, key);
    }
    forall l, k ensures LeadsTo(t, l, k) <==> if l == key then k == into else LeadsTo(s, l, k) {}
    forall l, k ensures InClass(t, l, k) <==> if l == key then k == into else InClass(s, l, k) {
      assert InClass(s, l, key) <==> l == key;
      assert InClass(s, key, k) <==> key == k;
    }
  }

  lemma FoldedQueue(s: State, t: State, env: Issued, key: nat, into: nat)
    requires AddrIndex(s) && Queue(s, env) && Folded(s, t, key, into) && Blank(s.etw[key])
    ensures Queue(t, env)
  {
    forall k ensures IsPending(s, k) <==> IsPending(t, k) {}
    forall k ensures Reachable(t, k) ==> Reachable(s, k) {}
  }

  lemma FoldedMaximal(s: State, t: State, key: nat, into: nat)
    requires Maximal(s) && Folded(s, t, key, into)
    ensures Maximal(t)
  {
    forall a ensures NoMissedBind(t, a) { assert NoMissedBind(s, a); }
  }

  lemma FoldedKeepsJoin(s: State, t: State, env: Issued, key: nat, into: nat)
    requires JoinInv(s, env) && Folded(s, t, key, into) && s.etw[key].address == 0 && s.etw[into].address != 0
    ensures JoinInv(t, env)
  {
    assert Blank(s.etw[key]) && 0 !in s.live;
    hide Binding, Forest, PendingQueue, QueueSorted, LiveIds, PtrIndex, ChildIndex, ParentsAreHeaps;
    IdentitiesKeepObjects(s, t, env);
    FoldedBinding(s, t, key, into);
    FoldedForest(s, t, env, key, into);
    FoldedQueue(s, t, env, key, into);
    FoldedMaximal(s, t, key, into);
  }

  // A record takes an address; another type's record may lose it.
  ghost predicate Addressed(s: State, t: State, key: nat, addr: nat) {
    && key in s.etw && s.etw[key].address == 0 && addr != 0
    && t.live == s.live && t.ix == s.ix.(byAddr := s.ix.byAddr[addr := key])
    && t.etw == s.etw[key := s.etw[key].(address := addr)]
  }

  lemma AddressedRecords(s: State, t: State, env: Issued, key: nat, addr: nat)
    requires Records(s, env) && Addressed(s, t, key, addr)
    ensures Records(t, env)
  {
    assert Blank(s.etw[key]);
    forall l, k ensures LeadsTo(t, l, k) <==> LeadsTo(s, l, k) {}
    forall l, k ensures InClass(t, l, k) <==> InClass(s, l, k) {}
  }

  lemma AddressedQueue(s: State, t: State, env: Issued, key: nat, addr: nat)
    requires Queue(s, env) && Addressed(s, t, key, addr) && Blank(s.etw[key])
    ensures Queue(t, env)
  {
    forall k ensures IsPending(s, k) <==> IsPending(t, k) {}
    forall k ensures Reachable(t, k) <==> k == key || (Reachable(s, k) && s.etw[k].address != addr) {}
  }

  lemma AddressedMaximal(s: State, t: State, key: nat, addr: nat)
    requires Maximal(s) && Addressed(s, t, key, addr)
    ensures MaximalBut(t, addr)
  {
    forall a | a != addr ensures NoMissedBind(t, a) { assert NoMissedBind(s, a); }
  }

  lemma AddressedKeeps(s: State, t: State, env: Issued, key: nat, addr: nat)
    requires JoinInv(s, env) && Addressed(s, t, key, addr)
    ensures Objects(t, env) && Records(t, env) && Queue(t, env) && Reachable(t, key) && MaximalBut(t, addr)
  {
    assert Blank(s.etw[key]);
    hide Binding, Forest, PendingQueue, QueueSorted, LiveIds, PtrIndex, ChildIndex, ParentsAreHeaps;
    IdentitiesKeepObjects(s, t, env);
    AddressedRecords(s, t, env, key, addr);
    AddressedQueue(s, t, env, key, addr);
    AddressedMaximal(s, t, key, addr);
  }

  function NextFold(s: State, env: Issued, lib: nat, addr: nat): Issued {
    if addr != 0 && Known(s, lib) && s.etw[s.ix.alias[lib]].address == 0 && IsReReport(s, s.ix.alias[lib], addr)
    then env.(canon := env.canon - {s.ix.alias[lib]}) else env
  }

  lemma AbsorbRegroups(s: State, env: Issued, e: EtwObj, into: nat, pick: Order)
    requires JoinInv(s, env) && into in s.etw
    ensures Regrouped(s, Absorb(s, e, into, pick), into)
  {
    hide ApplySize, ApplyGroup, Objects, Records, Queue, Maximal, Regrouped, Binding;
    NoZero(s, env);
    ApplySizeRegroups(s, into, e.size, e.createdTs);
    var t := if e.size != 0 then ApplySize(s, into, e.size, e.createdTs) else s;
    RegroupedSelf(s, env, into);
    RegroupedKeepsJoin(s, t, env, into);
    NoZero(t, env);
    RegroupedSelf(t, env, into);
    var u := if e.group != MemLoc.Unknown && e.group != t.etw[into].group
             then ApplyGroup(t, into, e.group, e.createdTs, pick) else t;
    ApplyGroupRegroups(t, into, e.group, e.createdTs, pick);
    RegroupedTrans(s, t, u, into);
  }

  lemma RegroupedTrans(s: State, t: State, u: State, key: nat)
    requires Regrouped(s, t, key) && Regrouped(t, u, key)
    ensures Regrouped(s, u, key)
  {
  }

  lemma RegroupedSelf(s: State, env: Issued, key: nat)
    requires JoinInv(s, env) && key in s.etw
    ensures Regrouped(s, s, key)
  {
  }

  lemma FoldKeepsJoin(s: State, env: Issued, key: nat, into: nat, pick: Order)
    requires JoinInv(s, env) && key in s.etw && into in s.etw && key != into
    requires s.etw[key].address == 0 && s.etw[into].address != 0
    ensures JoinInv(Fold(s, key, into, pick), env)
    ensures var t := Fold(s, key, into, pick);
            into in t.etw && t.etw[into].address == s.etw[into].address && t.ix.byAddr == s.ix.byAddr
  {
    hide Objects, Records, Queue, Maximal, Absorb;
    var s1 := CountDuplicate(s);
    StatsKeepJoin(s, s1, env);
    AbsorbRegroups(s1, env, s.etw[key], into, pick);
    RegroupedKeepsJoin(s1, Absorb(s1, s.etw[key], into, pick), env, into);
    FoldedKeepsJoin(Absorb(s1, s.etw[key], into, pick), Fold(s, key, into, pick), env, key, into);
  }

  lemma NoZero(s: State, env: Issued)
    requires JoinInv(s, env)
    ensures Binding(s) && 0 !in s.live
  {
  }

  lemma StatsKeepJoin(s: State, t: State, env: Issued)
    requires JoinInv(s, env) && t.live == s.live && t.etw == s.etw && t.ix == s.ix
    ensures JoinInv(t, env)
  {
    hide Objects, Records, Queue, Maximal;
    SameJoinKeeps(s, t, env);
  }

  lemma EtwAddressKeepsJoin(s: State, env: Issued, lib: nat, addr: nat, pick: Order)
    requires JoinInv(s, env)
    ensures JoinInv(EtwAddress(s, lib, addr, env.nowMs, pick), env)
  {
    if addr != 0 && Known(s, lib) && s.etw[s.ix.alias[lib]].address == 0 {
      var key := s.ix.alias[lib];
      var ts := s.etw[key].createdTs;
      if IsReReport(s, key, addr) {
        var into := s.ix.byAddr[addr];
        assert s.etw[into].address == addr;
        hide Objects, Records, Queue, MaximalBut, TryBind, Fold;
        FoldKeepsJoin(s, env, key, into, pick);
        assert Reachable(Fold(s, key, into, pick), into);
        MaximalIsBut(Fold(s, key, into, pick), addr);
        TryBindKeepsJoin(Fold(s, key, into, pick), env, into, ts, pick);
      } else {
        hide Objects, Records, Queue, Maximal, MaximalBut, TryBind;
        AddressedKeeps(s, SetAddress(s, key, addr), env, key, addr);
        TryBindKeepsJoin(SetAddress(s, key, addr), env, key, ts, pick);
      }
    }
  }

  lemma MaximalIsBut(s: State, a: nat)
    requires Maximal(s)
    ensures MaximalBut(s, a)
  {
  }

  lemma EtwSizeKeepsJoin(s: State, env: Issued, abs: int, lib: nat, size: nat)
    requires JoinInv(s, env)
    ensures JoinInv(EtwSize(s, abs, lib, size), env)
  {
    if Known(s, lib) {
      hide ConvTs, ApplySize, Objects, Records, Queue, Maximal;
      NoZero(s, env);
      ApplySizeRegroups(s, s.ix.alias[lib], size, ConvTs(s.tb, abs));
      RegroupedKeepsJoin(s, EtwSize(s, abs, lib, size), env, s.ix.alias[lib]);
    }
  }

  lemma ApplyGroupKeepsJoin(s: State, env: Issued, key: nat, g: MemLoc, ts: nat, pick: Order)
    requires JoinInv(s, env) && key in s.etw
    ensures JoinInv(ApplyGroup(s, key, g, ts, pick), env)
  {
    hide ApplyGroup, Objects, Records, Queue, Maximal;
    NoZero(s, env);
    ApplyGroupRegroups(s, key, g, ts, pick);
    RegroupedKeepsJoin(s, ApplyGroup(s, key, g, ts, pick), env, key);
  }

  // ---- Destruction ------------------------------------------------------------------------------

  // The record key and its whole class of ids are gone.
  ghost predicate Died(s: State, t: State, key: nat) {
    && key in s.etw && t.etw == s.etw - {key}
    && t.live.Keys == s.live.Keys
    && (forall i | i in s.live && s.live[i].etwKey != key :: t.live[i] == s.live[i])
    && (forall i | i in s.live && s.live[i].etwKey == key :: t.live[i] == s.live[i].(etwKey := 0))
    && t.ix == s.ix.(alias := t.ix.alias, byAddr := t.ix.byAddr)
    && t.ix.alias == s.ix.alias - (set x | x in s.etw[key].aliases) - {key}
    && t.ix.byAddr == (if s.etw[key].address in s.ix.byAddr && s.ix.byAddr[s.etw[key].address] == key
                       then s.ix.byAddr - {s.etw[key].address} else s.ix.byAddr)
  }

  lemma EtwDestroyedDies(s: State, env: Issued, abs: int, lib: nat)
    requires LiveIds(s, env) && Binding(s) && AddrIndex(s) && Known(s, lib)
    ensures Died(s, EtwDestroyed(s, abs, lib), s.ix.alias[lib])
  {
    hide ConvTs, SubDriver;
    var key := s.ix.alias[lib];
    assert forall i | i in s.live && s.live[i].etwKey == key :: i == s.etw[key].boundId;
  }

  lemma DiedBinding(s: State, t: State, env: Issued, key: nat)
    requires LiveIds(s, env) && Binding(s) && Died(s, t, key)
    ensures Binding(t)
  {
    forall k | k in t.etw && t.etw[k].boundId != 0
      ensures t.etw[k].boundId in t.live && t.live[t.etw[k].boundId].etwKey == k
      ensures Pair(t.etw[k], t.live[t.etw[k].boundId])
    {
      assert s.live[s.etw[k].boundId].etwKey == k;
    }
  }

  lemma DiedForest(s: State, t: State, env: Issued, key: nat)
    requires Forest(s, env) && Died(s, t, key)
    ensures Forest(t, env)
  {
    forall l ensures LeadsTo(s, l, key) <==> InClass(s, l, key) {}
    forall l, k ensures InClass(t, l, k) <==> InClass(s, l, k) && k != key {}
    forall l, k ensures LeadsTo(t, l, k) <==> LeadsTo(s, l, k) && k != key {
      assert LeadsTo(s, l, key) <==> InClass(s, l, key);
    }
    forall l | l in t.ix.alias ensures l in env.libs && t.ix.alias[l] in t.etw {
      assert LeadsTo(t, l, t.ix.alias[l]);
    }
  }

  lemma DiedQueue(s: State, t: State, env: Issued, key: nat)
    requires AddrIndex(s) && Queue(s, env) && Died(s, t, key)
    ensures Queue(t, env)
  {
    forall k ensures IsPending(t, k) <==> IsPending(s, k) && k != key {}
    forall k ensures Reachable(t, k) ==> Reachable(s, k) {}
  }

  lemma DiedMaximal(s: State, t: State, key: nat)
    requires Maximal(s) && Died(s, t, key)
    ensures Maximal(t)
  {
    forall a ensures NoMissedBind(t, a) { assert NoMissedBind(s, a); }
  }

  lemma EtwDestroyedKeepsJoin(s: State, env: Issued, abs: int, lib: nat)
    requires JoinInv(s, env)
    ensures JoinInv(EtwDestroyed(s, abs, lib), env)
  {
    if Known(s, lib) {
      EtwDestroyedDies(s, env, abs, lib);
      var t, key := EtwDestroyed(s, abs, lib), s.ix.alias[lib];
      hide EtwDestroyed, Binding, Forest, PendingQueue, QueueSorted, PtrIndex, ChildIndex, ParentsAreHeaps, Maximal;
      IdentitiesKeepObjects(s, t, env);
      DiedBinding(s, t, env, key);
      DiedForest(s, t, env, key);
      DiedQueue(s, t, env, key);
      DiedMaximal(s, t, key);
    }
  }
}
