// Runs of the launcher's model: any interleaving of pipe events, ETW callbacks, ticks and polls.

module JoinRuns {
  import opened Wire
  import opened Timeline
  import opened ChildWatch
  import opened JoinState
  import opened JoinSteps
  import opened JoinInvariants
  import opened JoinPipe
  import opened JoinEtw
  import opened JoinQueue
  import opened JoinLocSteps
  import opened JoinAccounts
  import opened SidecarReader
  import opened JoinLog
  import opened JoinLogSteps
  import opened JoinLedger
  import Etw

  datatype Event =
    | HelloEvent(freq: nat, start: nat)
    | CreatedEvent(ts: nat, p: CreatedPayload, pick: Order)
    | DestroyedEvent(ts: nat, id: nat, pick: Order)
    | PollEvent(probe: Probe)
    | ChildExitEvent(ts: nat)
    | EtwCreatedEvent(abs: int, lib: nat, kind: Etw.ObjType, size: nat, group: Etw.Group)
    | EtwAddressEvent(lib: nat, addr: nat, nowMs: nat, pick: Order)
    | EtwDestroyedEvent(abs: int, lib: nat)
    | EtwSizeEvent(abs: int, lib: nat, size: nat)
    | EtwGroupEvent(abs: int, lib: nat, group: Etw.Group, probe: Probe, pick: Order)
    | EtwResidencyEvent(abs: int, lib: nat, op: Etw.ResidencyOp, probe: Probe)
    | EtwCounterEvent(abs: int, counter: nat, unit: Etw.CounterKind, mb: real, probe: Probe)
    | ReportEvent(nowTs: nat)
    | TickEvent(nowMs: nat, nowTs: nat)

  ghost function Step(s: State, e: Event): State {
    match e
    case HelloEvent(freq, start) => Hello(s, freq, start)
    case CreatedEvent(ts, p, pick) => Created(s, ts, p, pick)
    case DestroyedEvent(ts, id, pick) => Destroyed(s, ts, id, pick)
    case PollEvent(probe) => Poll(s, probe)
    case ChildExitEvent(ts) => s.(watch := SetChildExit(s.watch, ts))
    case EtwCreatedEvent(abs, lib, kind, size, group) => EtwCreated(s, abs, lib, kind, size, group)
    case EtwAddressEvent(lib, addr, nowMs, pick) => EtwAddress(s, lib, addr, nowMs, pick)
    case EtwDestroyedEvent(abs, lib) => EtwDestroyed(s, abs, lib)
    case EtwSizeEvent(abs, lib, size) => EtwSize(s, abs, lib, size)
    case EtwGroupEvent(abs, lib, group, probe, pick) => EtwGroup(s, abs, lib, group, probe, pick)
    case EtwResidencyEvent(abs, lib, op, probe) => EtwResidency(s, abs, lib, op, probe)
    case EtwCounterEvent(abs, counter, kind, mb, probe) => EtwCounter(s, abs, counter, kind, mb, probe)
    case ReportEvent(nowTs) => ReportCounters(s, nowTs)
    case TickEvent(nowMs, nowTs) => Tick(s, nowMs, nowTs)
  }

  // What the environment promises about the next event.
  ghost predicate Allowed(s: State, env: Issued, e: Event) {
    match e
    case CreatedEvent(_, p, pick) => FreshObject(s, env, p) && Enumerates(pick)
    case DestroyedEvent(_, _, pick) => Enumerates(pick)
    case EtwCreatedEvent(_, lib, _, _, _) => lib != 0 && lib !in env.libs
    case EtwAddressEvent(_, _, nowMs, pick) => env.nowMs <= nowMs && Enumerates(pick)
    case EtwGroupEvent(_, _, _, _, pick) => Enumerates(pick)
    case TickEvent(nowMs, _) => env.nowMs <= nowMs
    case _ => true
  }

  ghost function Next(s: State, env: Issued, e: Event): Issued {
    match e
    case CreatedEvent(_, p, _) => NextIds(env, p.id)
    case EtwCreatedEvent(_, lib, _, _, _) => NextLib(env, lib)
    case EtwAddressEvent(lib, addr, nowMs, _) => NextFold(s, env.(nowMs := nowMs), lib, addr)
    case EtwDestroyedEvent(_, lib) => NextEnd(s, env, lib)
    case TickEvent(nowMs, _) => NextTick(s, env, nowMs)
    case _ => env
  }

  // Everything the launcher's state promises between two events.
  ghost predicate Inv(s: State, env: Issued) {
    && JoinInv(s, env) && LocInv(s) && AccountsInv(s) && Ledger(s, env) && DriverSizes(s) && LogInv(s, env)
  }

  const NOTHING_ISSUED := Issued({}, {}, {}, 0, {}, 0)

  lemma InitialInv()
    ensures Inv(INITIAL, NOTHING_ISSUED)
  {
    hide JoinInv, LocInv, AccountsInv, Ledger, DriverSizes, LogInv;
    InitialJoin();
    InitialTotals();
    InitialLedger();
    InitialLog();
  }

  lemma InitialLedger()
    ensures Ledger(INITIAL, NOTHING_ISSUED) && DriverSizes(INITIAL)
  {
  }

  lemma InitialLog()
    ensures LogInv(INITIAL, NOTHING_ISSUED)
  {
  }

  lemma InitialJoin()
    ensures JoinInv(INITIAL, NOTHING_ISSUED)
  {
  }

  lemma InitialTotals()
    ensures LocInv(INITIAL) && AccountsInv(INITIAL)
  {
  }

  // Steps that touch none of the invariant's fields but the log, and add no line the reader follows.
  ghost predicate Idle(s: State, t: State) {
    && t.live == s.live && t.etw == s.etw && t.ix == s.ix && t.locBytes == s.locBytes
    && t.totals == s.totals && t.drivers == s.drivers && Read(t.log) == Read(s.log)
    && t.stats.created == s.stats.created && t.stats.rundownDuplicates == s.stats.rundownDuplicates
    && t.stats.binds == s.stats.binds && t.stats.lateMatches == s.stats.lateMatches
    && t.stats.pendingExpired == s.stats.pendingExpired
  }

  lemma IdleKeepsLog(s: State, t: State, env: Issued)
    requires LogInv(s, env) && Idle(s, t)
    ensures LogInv(t, env)
  {
    SpentMono(s, t);
    hide Read, Spent;
  }

  lemma IdleKeepsCounts(s: State, t: State, env: Issued)
    requires LocInv(s) && AccountsInv(s) && Ledger(s, env) && DriverSizes(s) && Idle(s, t)
    ensures LocInv(t) && AccountsInv(t) && Ledger(t, env) && DriverSizes(t)
  {
    hide LocCache, Reported, LocTally, TotalsInv, DriversInv;
  }

  lemma IdleKeepsInv(s: State, t: State, env: Issued)
    requires Inv(s, env) && Idle(s, t)
    ensures Inv(t, env)
  {
    hide JoinInv, LogInv, Ledger, AccountsInv, LocInv, DriverSizes;
    StatsKeepJoin(s, t, env);
    IdleKeepsCounts(s, t, env);
    IdleKeepsLog(s, t, env);
  }

  lemma PollIsIdle(s: State, p: Probe)
    ensures Idle(s, Poll(s, p))
  {
    hide Read;
    ReadAppend(s.log, TargetExitingLine(s.watch.aliveTs, p.nowTs));
  }

  lemma ResidencyIsIdle(s: State, abs: int, lib: nat, op: Etw.ResidencyOp, p: Probe)
    ensures Idle(s, EtwResidency(s, abs, lib, op, p))
  {
    var ts := ConvTs(s.tb, abs);
    var t := Filtered(s, ts, p);
    PollIsIdle(s, p);
    hide Read, ConvTs, Poll;
    var known := Known(t, lib);
    ReadAppend(t.log, ResidencyLine(ts, if known then t.etw[t.ix.alias[lib]].boundId else 0,
                                    if known then t.ix.alias[lib] else lib, op));
  }

  lemma CounterIsIdle(s: State, abs: int, counter: nat, kind: Etw.CounterKind, mb: real, p: Probe)
    ensures Idle(s, EtwCounter(s, abs, counter, kind, mb, p))
  {
    PollIsIdle(s, p);
    hide Read, ConvTs, Poll, FromMb;
  }

  lemma ReportIsIdle(s: State, nowTs: nat)
    ensures Idle(s, ReportCounters(s, nowTs))
  {
    hide Read;
    var t := ReportCounters(s, nowTs);
    if t != s {
      ReadAppend(s.log, t.log[|s.log|]);
    }
  }

  // ---- One event --------------------------------------------------------------------------------

  lemma CreatedKeepsInv(s: State, env: Issued, ts: nat, p: CreatedPayload, pick: Order)
    requires Inv(s, env) && FreshObject(s, env, p) && Enumerates(pick)
    ensures Inv(Created(s, ts, p, pick), NextIds(env, p.id))
  {
    hide LogInv, AccountsInv, LocInv, DriverSizes, Created;
    assert p.id !in s.live;
    var t := Created(s, ts, p, pick);
    CreatedKeepsJoin(s, env, ts, p, pick);
    CreatedKeepsLoc(s, env, ts, p, pick);
    CreatedKeepsAccounts(s, ts, p, pick);
    CreatedLedger(s, ts, p, pick);
    LedgerKept(s, t, env);
    CreatedSizes(s, env, ts, p, pick);
    CreatedKeepsLog(s, env, ts, p, pick);
  }

  lemma CacheGrounds(live: map<nat, LiveObject>)
    requires LocCache(live, {})
    ensures Grounded(live)
  {
  }

  lemma DestroyedKeepsInv(s: State, env: Issued, ts: nat, id: nat, pick: Order)
    requires Inv(s, env) && Enumerates(pick)
    ensures Inv(Destroyed(s, ts, id, pick), env)
  {
    CacheGrounds(s.live);
    hide LogInv, AccountsInv, LocInv, DriverSizes, Destroyed, Grounded, Ledger, Objects, Binding, Forest, Queue,
         Maximal;
    var t := Destroyed(s, ts, id, pick);
    DestroyedKeepsJoin(s, env, ts, id, pick);
    DestroyedKeepsLoc(s, env, ts, id, pick);
    DestroyedKeepsAccounts(s, env, ts, id, pick);
    DestroyedLedger(s, ts, id, pick);
    LedgerKept(s, t, env);
    DestroyedKeepsSizes(s, env, ts, id, pick);
    DestroyedKeepsLog(s, env, ts, id, pick);
  }

  lemma EtwCreatedKeepsInv(s: State, env: Issued, abs: int, lib: nat, kind: Etw.ObjType, size: nat, group: Etw.Group)
    requires Inv(s, env) && lib != 0 && lib !in env.libs
    ensures Inv(EtwCreated(s, abs, lib, kind, size, group), NextLib(env, lib))
  {
    assert lib !in s.ix.alias;
    EtwCreatedFrames(s, abs, lib, kind, size, group);
    hide LogInv, AccountsInv, LocInv, DriverSizes, EtwCreated, Objects, Binding, AddrIndex, AliasesOnce, Queue, Maximal;
    var t := EtwCreated(s, abs, lib, kind, size, group);
    EtwCreatedKeepsJoin(s, env, abs, lib, kind, size, group);
    SameLocationsKeep(s, t);
    EtwCreatedKeepsAccounts(s, env, abs, lib, kind, size, group);
    EtwCreatedLedger(s, env, abs, lib, kind, size, group);
    SizesKept(s, t);
    EtwCreatedKeepsLog(s, env, abs, lib, kind, size, group);
  }

  lemma EtwCreatedFrames(s: State, abs: int, lib: nat, kind: Etw.ObjType, size: nat, group: Etw.Group)
    ensures var t := EtwCreated(s, abs, lib, kind, size, group); SameLocations(s, t) && SameSizes(s, t)
  {
    hide ConvTs, AddDriver;
  }

  lemma EtwAddressKeepsInv(s: State, env: Issued, lib: nat, addr: nat, pick: Order)
    requires Inv(s, env) && Enumerates(pick)
    ensures Inv(EtwAddress(s, lib, addr, env.nowMs, pick), NextFold(s, env, lib, addr))
  {
    AddressLocs(s, env, lib, addr, pick);
    hide LogInv, AccountsInv, LocInv, DriverSizes, EtwAddress, Objects, Binding, AddrIndex, AliasForest, AliasesOnce,
         Queue, Maximal;
    var t := EtwAddress(s, lib, addr, env.nowMs, pick);
    EtwAddressKeepsJoin(s, env, lib, addr, pick);
    IssuedMore(t, env, NextFold(s, env, lib, addr));
    EtwAddressKeepsAccounts(s, lib, addr, env.nowMs, pick);
    EtwAddressLedger(s, env, lib, addr, env.nowMs, pick);
    EtwAddressSizes(s, env, lib, addr, env.nowMs, pick);
    EtwAddressKeepsLog(s, env, lib, addr, pick);
  }

  lemma AddressLocs(s: State, env: Issued, lib: nat, addr: nat, pick: Order)
    requires JoinInv(s, env) && LocInv(s) && Enumerates(pick)
    ensures LocInv(EtwAddress(s, lib, addr, env.nowMs, pick))
  {
    if addr != 0 && Known(s, lib) && s.etw[s.ix.alias[lib]].address == 0 {
      var key, ts := s.ix.alias[lib], s.etw[s.ix.alias[lib]].createdTs;
      JoinObjects(s, env);
      if IsReReport(s, key, addr) {
        var into := s.ix.byAddr[addr];
        assert s.etw[into].address == addr;
        hide JoinInv, LocInv, TryBind, Fold, Objects;
        FoldLocs(s, env, key, into, pick);
        FoldKeepsJoin(s, env, key, into, pick);
        JoinObjects(Fold(s, key, into, pick), env);
        TryBindKeepsLoc(Fold(s, key, into, pick), env, into, ts, env.nowMs, pick);
      } else {
        hide JoinInv, LocInv, TryBind, Objects;
        SameLocationsKeep(s, SetAddress(s, key, addr));
        IdentitiesKeepObjects(s, SetAddress(s, key, addr), env);
        TryBindKeepsLoc(SetAddress(s, key, addr), env, key, ts, env.nowMs, pick);
      }
    }
  }

  lemma JoinObjects(s: State, env: Issued)
    requires JoinInv(s, env)
    ensures Objects(s, env)
  {
  }

  lemma FoldLocs(s: State, env: Issued, key: nat, into: nat, pick: Order)
    requires JoinInv(s, env) && LocInv(s) && Enumerates(pick) && key in s.etw && into in s.etw && key != into
    ensures LocInv(Fold(s, key, into, pick))
  {
    hide JoinInv, LocInv, Absorb, Objects, SubDriver;
    StatsKeepJoin(s, CountDuplicate(s), env);
    SameLocationsKeep(s, CountDuplicate(s));
    AbsorbLocs(CountDuplicate(s), env, s.etw[key], into, pick);
    var t := Absorb(CountDuplicate(s), s.etw[key], into, pick);
    SameLocationsKeep(t, Merge(t, key, into));
  }

  lemma AbsorbLocs(s: State, env: Issued, e: EtwObj, into: nat, pick: Order)
    requires JoinInv(s, env) && LocInv(s) && Enumerates(pick) && into in s.etw
    ensures LocInv(Absorb(s, e, into, pick))
  {
    hide JoinInv, LocInv, ApplySize, ApplyGroup, Objects, Binding;
    NoZero(s, env);
    RegroupedSelf(s, env, into);
    ApplySizeKeepsLoc(s, into, e.size, e.createdTs);
    ApplySizeRegroups(s, into, e.size, e.createdTs);
    var t := if e.size != 0 then ApplySize(s, into, e.size, e.createdTs) else s;
    RegroupedKeepsJoin(s, t, env, into);
    JoinObjects(t, env);
    ApplyGroupKeepsLoc(t, env, into, e.group, e.createdTs, pick);
  }

  lemma EtwDestroyedKeepsInv(s: State, env: Issued, abs: int, lib: nat)
    requires Inv(s, env)
    ensures Inv(EtwDestroyed(s, abs, lib), NextEnd(s, env, lib))
  {
    EtwDestroyedFrames(s, abs, lib);
    hide LogInv, AccountsInv, LocInv, DriverSizes, EtwDestroyed, Objects, Binding, Forest, Queue, Maximal;
    var t := EtwDestroyed(s, abs, lib);
    EtwDestroyedKeepsJoin(s, env, abs, lib);
    SameLocationsKeep(s, t);
    EtwDestroyedKeepsAccounts(s, abs, lib);
    EtwDestroyedLedger(s, env, abs, lib);
    SizesKept(s, t);
    DestroyedLogParts(s, env);
    EtwDestroyedKeepsLog(s, env, abs, lib);
    IssuedMore(t, env, NextEnd(s, env, lib));
    LogIssued(t, env, NextEnd(s, env, lib));
  }

  lemma DestroyedLogParts(s: State, env: Issued)
    requires JoinInv(s, env)
    ensures LiveIds(s, env) && Binding(s) && Forest(s, env)
  {
  }

  lemma LogIssued(s: State, env: Issued, env2: Issued)
    requires LogInv(s, env) && env2.ids == env.ids && env2.canon == env.canon
    ensures LogInv(s, env2)
  {
  }

  lemma EtwDestroyedFrames(s: State, abs: int, lib: nat)
    ensures var t := EtwDestroyed(s, abs, lib); SameLocations(s, t) && SameSizes(s, t)
  {
    hide ConvTs, SubDriver;
  }

  lemma EtwSizeKeepsInv(s: State, env: Issued, abs: int, lib: nat, size: nat)
    requires Inv(s, env)
    ensures Inv(EtwSize(s, abs, lib, size), env)
  {
    if Known(s, lib) {
      var key, ts := s.ix.alias[lib], ConvTs(s.tb, abs);
      ApplySizeSame(s, key, size, ts);
      NoZero(s, env);
      hide LogInv, AccountsInv, LocInv, DriverSizes, JoinInv, ApplySize, Binding, ConvTs, Ledger;
      EtwSizeKeepsJoin(s, env, abs, lib, size);
      ApplySizeKeepsLoc(s, key, size, ts);
      ApplySizeKeepsAccounts(s, key, size, ts);
      LedgerKept(s, ApplySize(s, key, size, ts), env);
      ApplySizeSizes(s, key, size, ts);
      ApplySizeKeepsLog(s, env, key, size, ts);
    }
  }

  lemma ApplyGroupKeepsInv(s: State, env: Issued, key: nat, g: MemLoc, ts: nat, pick: Order)
    requires Inv(s, env) && key in s.etw && Enumerates(pick)
    ensures Inv(ApplyGroup(s, key, g, ts, pick), env)
  {
    ApplyGroupSame(s, key, g, ts, pick);
    JoinObjects(s, env);
    JoinFacts(s, env);
    hide LogInv, AccountsInv, LocInv, DriverSizes, JoinInv, ApplyGroup, Binding, Ledger, Objects, PtrIndex, LiveIds;
    ApplyGroupKeepsJoin(s, env, key, g, ts, pick);
    ApplyGroupKeepsLoc(s, env, key, g, ts, pick);
    ApplyGroupKeepsAccounts(s, key, g, ts, pick);
    LedgerKept(s, ApplyGroup(s, key, g, ts, pick), env);
    ApplyGroupSizes(s, key, g, ts, pick);
    ApplyGroupKeepsLog(s, env, key, g, ts, pick);
  }

  lemma EtwGroupKeepsInv(s: State, env: Issued, abs: int, lib: nat, group: Etw.Group, p: Probe, pick: Order)
    requires Inv(s, env) && Enumerates(pick)
    ensures Inv(EtwGroup(s, abs, lib, group, p, pick), env)
  {
    hide Inv, ApplyGroup, Read, ConvTs, Poll;
    var ts := ConvTs(s.tb, abs);
    var t := Filtered(s, ts, p);
    PollIsIdle(s, p);
    assert Idle(s, t);
    IdleKeepsInv(s, t, env);
    var u := t.(stats := t.stats.(groupChanges := t.stats.groupChanges + 1));
    var v := t.(stats := t.stats.(postExitIgnored := t.stats.postExitIgnored + 1));
    IdleKeepsInv(t, u, env);
    IdleKeepsInv(t, v, env);
    if Known(u, lib) {
      ApplyGroupKeepsInv(u, env, u.ix.alias[lib], FromGroup(group), ts, pick);
    }
  }

  lemma TickKeepsInv(s: State, env: Issued, nowMs: nat, nowTs: nat)
    requires Inv(s, env) && env.nowMs <= nowMs
    ensures Inv(Tick(s, nowMs, nowTs), NextTick(s, env, nowMs))
  {
    TickFrames(s, env, nowMs, nowTs);
    hide AccountsInv, LocInv, DriverSizes, Tick, Objects, Records, Maximal, LocLog, BindLog, Read, Spent;
    var t := Tick(s, nowMs, nowTs);
    TickKeepsJoin(s, env, nowMs, nowTs);
    SameLocationsKeep(s, t);
    TickLedger(s, env, nowMs, nowTs);
    SizesKept(s, t);
  }

  lemma TickShape(s: State, env: Issued, nowMs: nat, nowTs: nat)
    requires Queue(s, env) && env.nowMs <= nowMs
    ensures var t := Tick(s, nowMs, nowTs);
            && t == s.(etw := ExpireAll(s.etw, nowMs), ix := t.ix, stats := t.stats)
            && t.stats == s.stats.(pendingExpired := t.stats.pendingExpired)
            && t.ix.byAddr == s.ix.byAddr
  {
    ExpireQueueScansAll(s, nowMs);
    ExpireQueueFrame(s, nowMs);
    PruneFrame(ExpireQueue(s, nowMs), nowTs);
    hide ExpireQueue, Prune, ExpireAll, AllTimedOut;
  }

  lemma TickFrames(s: State, env: Issued, nowMs: nat, nowTs: nat)
    requires Inv(s, env) && env.nowMs <= nowMs
    ensures var t := Tick(s, nowMs, nowTs);
            && SameLocations(s, t) && SameSizes(s, t) && AccountsInv(t) && LogInv(t, env)
  {
    hide Tick, DriversInv, TotalsInv;
    TickShape(s, env, nowMs, nowTs);
    var t := Tick(s, nowMs, nowTs);
    KindsKeepDrivers(s, t);
    TickKeepsLog(s, t, env, nowMs);
  }

  lemma TickKeepsLog(s: State, t: State, env: Issued, nowMs: nat)
    requires LogInv(s, env)
    requires t == s.(etw := ExpireAll(s.etw, nowMs), ix := t.ix, stats := t.stats) && t.ix.byAddr == s.ix.byAddr
    requires t.stats == s.stats.(pendingExpired := t.stats.pendingExpired)
    ensures LogInv(t, env)
  {
    SpentMono(s, t);
    hide LocLog, Read, Spent;
  }

  // ---- Runs -------------------------------------------------------------------------------------

  lemma StepKeepsInv(s: State, env: Issued, e: Event)
    requires Inv(s, env) && Allowed(s, env, e)
    ensures Inv(Step(s, e), Next(s, env, e))
  {
    hide Inv, Created, Destroyed, EtwCreated, EtwAddress, EtwDestroyed, EtwSize, EtwGroup, EtwResidency, EtwCounter,
         ReportCounters, Tick, Read, Poll, NextFold, NextTick, NextEnd, FreshObject;
    match e
    case HelloEvent(freq, start) => IdleKeepsInv(s, Hello(s, freq, start), env);
    case CreatedEvent(ts, p, pick) => CreatedKeepsInv(s, env, ts, p, pick);
    case DestroyedEvent(ts, id, pick) => DestroyedKeepsInv(s, env, ts, id, pick);
    case PollEvent(probe) => PollIsIdle(s, probe); IdleKeepsInv(s, Poll(s, probe), env);
    case ChildExitEvent(ts) => IdleKeepsInv(s, s.(watch := SetChildExit(s.watch, ts)), env);
    case EtwCreatedEvent(abs, lib, kind, size, group) => EtwCreatedKeepsInv(s, env, abs, lib, kind, size, group);
    case EtwAddressEvent(lib, addr, nowMs, pick) =>
      ClockForward(s, env, nowMs);
      EtwAddressKeepsInv(s, env.(nowMs := nowMs), lib, addr, pick);
    case EtwDestroyedEvent(abs, lib) => EtwDestroyedKeepsInv(s, env, abs, lib);
    case EtwSizeEvent(abs, lib, size) => EtwSizeKeepsInv(s, env, abs, lib, size);
    case EtwGroupEvent(abs, lib, group, probe, pick) => EtwGroupKeepsInv(s, env, abs, lib, group, probe, pick);
    case EtwResidencyEvent(abs, lib, op, probe) =>
      ResidencyIsIdle(s, abs, lib, op, probe);
      IdleKeepsInv(s, EtwResidency(s, abs, lib, op, probe), env);
    case EtwCounterEvent(abs, counter, kind, mb, probe) =>
      CounterIsIdle(s, abs, counter, kind, mb, probe);
      IdleKeepsInv(s, EtwCounter(s, abs, counter, kind, mb, probe), env);
    case ReportEvent(nowTs) => ReportIsIdle(s, nowTs); IdleKeepsInv(s, ReportCounters(s, nowTs), env);
    case TickEvent(nowMs, nowTs) => TickKeepsInv(s, env, nowMs, nowTs);
  }

  lemma ClockForward(s: State, env: Issued, nowMs: nat)
    requires Inv(s, env) && env.nowMs <= nowMs
    ensures Inv(s, env.(nowMs := nowMs))
  {
    IssuedMore(s, env, env.(nowMs := nowMs));
    LogIssued(s, env, env.(nowMs := nowMs));
  }

  ghost function Run(s: State, es: seq<Event>): State {
    if es == [] then s else Step(Run(s, es[..|es| - 1]), es[|es| - 1])
  }

  ghost function Issuing(s: State, env: Issued, es: seq<Event>): Issued {
    if es == [] then env else
      var before := es[..|es| - 1];
      Next(Run(s, before), Issuing(s, env, before), es[|es| - 1])
  }

  // The environment keeps its promises at every event.
  ghost predicate Fair(s: State, env: Issued, es: seq<Event>) {
    es == [] ||
    (var before := es[..|es| - 1];
     Fair(s, env, before) && Allowed(Run(s, before), Issuing(s, env, before), es[|es| - 1]))
  }

  // Every state of every run, under every interleaving of the two event streams.
  lemma {:induction false} RunKeepsInv(s: State, env: Issued, es: seq<Event>)
    requires Inv(s, env) && Fair(s, env, es)
    ensures Inv(Run(s, es), Issuing(s, env, es))
  {
    if es != [] {
      hide Inv, Step, Allowed, Next;
      var before := es[..|es| - 1];
      RunKeepsInv(s, env, before);
      StepKeepsInv(Run(s, before), Issuing(s, env, before), es[|es| - 1]);
    }
  }
}
