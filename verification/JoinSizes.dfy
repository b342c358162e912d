// A driver size, once known, is never forgotten while its record lives.

module JoinSizes {
  import opened Wire
  import opened Timeline
  import opened JoinState
  import opened JoinSteps
  import opened JoinInvariants
  import opened JoinPipe
  import opened JoinQueue
  import opened JoinAccounts
  import opened JoinRuns
  import opened JoinTheorems
  import opened JoinHistory
  import ChildWatch
  import Etw

  ghost predicate SizesStay(s: State, t: State) {
    forall k | k in s.etw && k in t.etw && s.etw[k].size != 0 :: t.etw[k].size != 0
  }

  lemma SameKindsStay(s: State, t: State)
    requires SameKinds(s, t)
    ensures SizesStay(s, t)
  {
  }

  lemma ApplySizeStays(s: State, key: nat, size: nat, ts: nat)
    requires key in s.etw
    ensures var t := ApplySize(s, key, size, ts); SizesStay(s, t) && t.etw.Keys == s.etw.Keys
  {
    hide AddDriver, SubDriver;
  }

  lemma FoldStays(s: State, key: nat, into: nat, pick: Order)
    requires key in s.etw && into in s.etw && key != into
    ensures var t := Fold(s, key, into, pick); SizesStay(s, t) && t.etw.Keys == s.etw.Keys - {key}
  {
    var c, e := CountDuplicate(s), s.etw[key];
    ApplySizeStays(c, into, e.size, e.createdTs);
    var t := if e.size != 0 then ApplySize(c, into, e.size, e.createdTs) else c;
    ApplyGroupCatalog(t, into, e.group, e.createdTs, pick);
    hide ApplySize, ApplyGroup, SubDriver;
  }

  lemma EtwAddressStays(s: State, lib: nat, addr: nat, nowMs: nat, pick: Order)
    ensures SizesStay(s, EtwAddress(s, lib, addr, nowMs, pick))
  {
    if addr != 0 && Known(s, lib) && s.etw[s.ix.alias[lib]].address == 0 {
      var key, ts := s.ix.alias[lib], s.etw[s.ix.alias[lib]].createdTs;
      hide TryBind, Fold;
      if IsReReport(s, key, addr) {
        FoldStays(s, key, s.ix.byAddr[addr], pick);
        TryBindCatalog(Fold(s, key, s.ix.byAddr[addr], pick), s.ix.byAddr[addr], ts, nowMs, pick);
      } else {
        TryBindCatalog(SetAddress(s, key, addr), key, ts, nowMs, pick);
      }
    }
  }

  lemma CreatedStays(s: State, ts: nat, p: CreatedPayload, pick: Order)
    requires p.id !in s.live
    ensures SizesStay(s, Created(s, ts, p, pick))
  {
    var a := Admit(s, p);
    EnterCatalog(a, p.id, ts);
    JoinNewCatalog(Enter(a, p.id, ts), p.id, ts, pick);
    hide Enter, JoinNew, AddTotals;
  }

  lemma DestroyedStays(s: State, env: Issued, ts: nat, id: nat, pick: Order)
    requires Objects(s, env) && Binding(s)
    ensures SizesStay(s, Destroyed(s, ts, id, pick))
  {
    if id in s.live {
      EtwOnDestroyedCatalog(s, env, ts, id, pick);
    }
    hide EtwOnDestroyed, Objects, Binding, SubTotals;
  }

  lemma EtwGroupStays(s: State, abs: int, lib: nat, group: Etw.Group, p: ChildWatch.Probe, pick: Order)
    ensures SizesStay(s, EtwGroup(s, abs, lib, group, p, pick))
  {
    var ts := ConvTs(s.tb, abs);
    FilteredPast(s, ts, p);
    hide ApplyGroup, ConvTs, Filtered, FromGroup, ChildWatch.Ignored;
    var t := Filtered(s, ts, p);
    var u := t.(stats := t.stats.(groupChanges := t.stats.groupChanges + 1));
    if Known(u, lib) {
      ApplyGroupCatalog(u, u.ix.alias[lib], FromGroup(group), ts, pick);
    }
  }

  lemma TickStays(s: State, env: Issued, nowMs: nat, nowTs: nat)
    requires Inv(s, env) && env.nowMs <= nowMs
    ensures SizesStay(s, Tick(s, nowMs, nowTs))
  {
    JoinQueueParts(s, env);
    TickExpires(s, env, nowMs, nowTs);
    hide Inv, Tick, Queue;
  }

  lemma JoinQueueParts(s: State, env: Issued)
    requires Inv(s, env)
    ensures Queue(s, env)
  {
    hide Queue, Objects, Records, Maximal;
  }

  // Sizes never go back to "not known", whatever event comes next.
  lemma SizeNeverReverts(es: seq<Event>, s: State, env: Issued, e: Event)
    requires Reached(es, s, env) && Allowed(s, env, e)
    ensures SizesStay(s, Step(s, e))
  {
    ReachedInv(es, s, env);
    hide Reached, Inv, Allowed, Step, SizesStay;
    StepStays(s, env, e);
  }

  predicate FromLibrary(e: Event) {
    e.EtwCreatedEvent? || e.EtwAddressEvent? || e.EtwDestroyedEvent? || e.EtwSizeEvent?
  }

  lemma StepStays(s: State, env: Issued, e: Event)
    requires Inv(s, env) && Allowed(s, env, e)
    ensures SizesStay(s, Step(s, e))
  {
    hide Inv, Allowed, Step, SizesStay;
    if e.CreatedEvent? || e.DestroyedEvent? || e.TickEvent? {
      LauncherStepStays(s, env, e);
    } else if FromLibrary(e) {
      LibraryStepStays(s, env, e);
    } else {
      WatchedStepStays(s, e);
    }
  }

  lemma LauncherStepStays(s: State, env: Issued, e: Event)
    requires Inv(s, env) && Allowed(s, env, e) && (e.CreatedEvent? || e.DestroyedEvent? || e.TickEvent?)
    ensures SizesStay(s, Step(s, e))
  {
    InvObjects(s, env);
    hide Inv, Created, Destroyed, Tick, FreshObject, Objects, Binding, SizesStay;
    match e
    case CreatedEvent(ts, p, pick) => FreshId(s, env, p); CreatedStays(s, ts, p, pick);
    case DestroyedEvent(ts, id, pick) => DestroyedStays(s, env, ts, id, pick);
    case TickEvent(nowMs, nowTs) => TickStays(s, env, nowMs, nowTs);
  }

  lemma LibraryStepStays(s: State, env: Issued, e: Event)
    requires Inv(s, env) && Allowed(s, env, e) && FromLibrary(e)
    ensures SizesStay(s, Step(s, e))
  {
    hide Inv, EtwCreated, EtwAddress, EtwDestroyed, ApplySize, ConvTs, SizesStay, Enumerates;
    match e
    case EtwCreatedEvent(abs, lib, kind, size, group) =>
      NewRecordFresh(s, env, lib);
      EtwCreatedStays(s, abs, lib, kind, size, group);
    case EtwAddressEvent(lib, addr, nowMs, pick) => EtwAddressStays(s, lib, addr, nowMs, pick);
    case EtwDestroyedEvent(abs, lib) => EtwDestroyedStays(s, abs, lib);
    case EtwSizeEvent(abs, lib, size) =>
      SelfStays(s);
      if Known(s, lib) { ApplySizeStays(s, s.ix.alias[lib], size, ConvTs(s.tb, abs)); }
  }

  lemma WatchedStepStays(s: State, e: Event)
    requires !e.CreatedEvent? && !e.DestroyedEvent? && !e.TickEvent? && !FromLibrary(e)
    ensures SizesStay(s, Step(s, e))
  {
    hide EtwGroup, Poll, EtwResidency, EtwCounter, Idle, SizesStay, Timeline.OnHello;
    match e
    case PollEvent(p) => PollIsIdle(s, p); IdleStays(s, Poll(s, p));
    case EtwGroupEvent(abs, lib, group, p, pick) => EtwGroupStays(s, abs, lib, group, p, pick);
    case EtwResidencyEvent(abs, lib, op, p) =>
      ResidencyIsIdle(s, abs, lib, op, p);
      IdleStays(s, EtwResidency(s, abs, lib, op, p));
    case EtwCounterEvent(abs, counter, kind, mb, p) =>
      CounterIsIdle(s, abs, counter, kind, mb, p);
      IdleStays(s, EtwCounter(s, abs, counter, kind, mb, p));
    case _ => SameKindsStay(s, Step(s, e));
  }

  lemma SelfStays(s: State)
    ensures SizesStay(s, s)
  {
  }

  lemma IdleStays(s: State, t: State)
    requires Idle(s, t)
    ensures SizesStay(s, t)
  {
  }

  lemma EtwCreatedStays(s: State, abs: int, lib: nat, kind: Etw.ObjType, size: nat, group: Etw.Group)
    requires lib !in s.etw
    ensures SizesStay(s, EtwCreated(s, abs, lib, kind, size, group))
  {
    hide AddDriver, ConvTs;
  }

  lemma EtwDestroyedStays(s: State, abs: int, lib: nat)
    ensures SizesStay(s, EtwDestroyed(s, abs, lib))
  {
    hide SubDriver, ConvTs, EtwDestroyedIndexes;
  }

  lemma NewRecordFresh(s: State, env: Issued, lib: nat)
    requires Inv(s, env) && lib !in env.libs
    ensures lib !in s.etw
  {
    hide LocInv, Objects, Queue, Maximal, Binding, AddrIndex, AliasesOnce, AddresslessBlank;
    assert LeadsTo(s, lib, lib) <==> InClass(s, lib, lib);
  }
}
