// The launcher's Model as the object it is (src/launcher/Model.cpp): every public method is one atomic step
// under the lock. Each method is proved against the corresponding function of JoinSteps.

module LauncherModel {
  import opened Wire
  import opened Tallies
  import opened Timeline
  import opened ChildWatch
  import opened JoinState
  import opened JoinSteps
  import opened JoinInvariants
  import opened JoinPipe
  import opened JoinEtw
  import opened JoinQueue
  import opened JoinAccounts
  import opened SidecarReader
  import opened JoinLog
  import opened JoinLedger
  import opened JoinRuns
  import opened JoinTheorems
  import Etw

  datatype GroupChange = GroupChange(ts: int, lib: nat, group: Etw.Group)

  // The batch as single events, each with the look at the child that its element may trigger.
  function GroupEvents(changes: seq<GroupChange>, looks: seq<Probe>, pick: Order): (es: seq<Event>)
    requires |looks| == |changes|
    ensures |es| == |changes|
  {
    seq(|changes|, i requires 0 <= i < |changes| =>
      EtwGroupEvent(changes[i].ts, changes[i].lib, changes[i].group, looks[i], pick))
  }

  // The two pipe events, by the parts their methods are made of.
  lemma CreatedByParts(s: State, ts: nat, p: CreatedPayload, pick: Order)
    ensures p.id in Admit(s, p).live
    ensures Step(s, CreatedEvent(ts, p, pick)) == EtwOnCreated(Admit(s, p), p.id, ts, pick)
    ensures Admit(s, p).live == s.live[p.id := NewObject(p)] && Admit(s, p).totals == AddTotals(s.totals, NewObject(p))
  {
    hide EtwOnCreated;
  }

  lemma DestroyedByParts(s: State, env: Issued, ts: nat, id: nat, pick: Order)
    requires Enumerates(pick)
    ensures Allowed(s, env, DestroyedEvent(ts, id, pick)) && Next(s, env, DestroyedEvent(ts, id, pick)) == env
    ensures var t := Step(s, DestroyedEvent(ts, id, pick));
            if id in s.live then
              var u := EtwOnDestroyed(s, id, ts, pick); t == if id in u.live then Forget(u, id) else u
            else t == s
    ensures id in s.live ==>
              Forget(s, id).totals == SubTotals(s.totals, s.live[id]) && Forget(s, id).live == s.live - {id}
  {
    hide EtwOnDestroyed;
  }

  lemma HelloByParts(s: State, env: Issued, freq: nat, start: nat)
    ensures var e := HelloEvent(freq, start);
            Allowed(s, env, e) && Next(s, env, e) == env && Step(s, e) == s.(tb := Timeline.OnHello(freq, start))
  {
  }

  // Events whose step and whose promises are one function each.
  lemma QuietByParts(s: State, env: Issued, e: Event)
    ensures match e
            case PollEvent(p) => Step(s, e) == Poll(s, p) && Allowed(s, env, e) && Next(s, env, e) == env
            case ChildExitEvent(ts) =>
              Step(s, e) == s.(watch := SetChildExit(s.watch, ts)) && Allowed(s, env, e) && Next(s, env, e) == env
            case EtwSizeEvent(abs, lib, size) =>
              Step(s, e) == EtwSize(s, abs, lib, size) && Allowed(s, env, e) && Next(s, env, e) == env
            case EtwResidencyEvent(abs, lib, op, p) =>
              Step(s, e) == EtwResidency(s, abs, lib, op, p) && Allowed(s, env, e) && Next(s, env, e) == env
            case EtwCounterEvent(abs, counter, kind, mb, p) =>
              Step(s, e) == EtwCounter(s, abs, counter, kind, mb, p) && Allowed(s, env, e) && Next(s, env, e) == env
            case EtwDestroyedEvent(abs, lib) => Step(s, e) == EtwDestroyed(s, abs, lib) && Allowed(s, env, e)
            case EtwCreatedEvent(abs, lib, kind, size, group) =>
              Step(s, e) == EtwCreated(s, abs, lib, kind, size, group)
            case EtwAddressEvent(lib, addr, nowMs, pick) => Step(s, e) == EtwAddress(s, lib, addr, nowMs, pick)
            case EtwGroupEvent(abs, lib, group, p, pick) => Step(s, e) == EtwGroup(s, abs, lib, group, p, pick)
            case TickEvent(nowMs, nowTs) => Step(s, e) == Tick(s, nowMs, nowTs)
            case ReportEvent(nowTs) =>
              Step(s, e) == ReportCounters(s, nowTs) && Allowed(s, env, e) && Next(s, env, e) == env
            case _ => true
  {
    hide Poll, EtwSize, EtwResidency, EtwCounter, EtwDestroyed, EtwCreated, EtwAddress, EtwGroup, Tick, ReportCounters,
         Created, Destroyed, Hello, FreshObject, NextFold, NextEnd, NextTick;
  }

  lemma RunNone(s: State, es: seq<Event>)
    ensures Run(s, es[..0]) == s
  {
  }

  lemma GroupStep(s: State, env: Issued, changes: seq<GroupChange>, looks: seq<Probe>, pick: Order, i: nat)
    requires |looks| == |changes| && i < |changes| && Enumerates(pick)
    requires Inv(Run(s, GroupEvents(changes, looks, pick)[..i]), env)
    ensures var es := GroupEvents(changes, looks, pick);
            && Run(s, es[..i + 1])
               == EtwGroup(Run(s, es[..i]), changes[i].ts, changes[i].lib, changes[i].group, looks[i], pick)
            && Inv(Run(s, es[..i + 1]), env)
  {
    hide Inv, EtwGroup;
    var es := GroupEvents(changes, looks, pick);
    assert es[..i + 1][..i] == es[..i];
    EtwGroupKeepsInv(Run(s, es[..i]), env, changes[i].ts, changes[i].lib, changes[i].group, looks[i], pick);
  }

  // ---- Recounting the records -------------------------------------------------------------------

  ghost function Elements(ids: seq<nat>): set<nat> {
    set x | x in ids
  }

  predicate IsBound(e: EtwObj) { e.boundId != 0 }
  predicate IsUnbound(e: EtwObj) { e.boundId == 0 && e.orphanTs == 0 }
  predicate IsWaiting(e: EtwObj) { e.boundId == 0 && e.orphanTs == 0 && e.pendingSince != 0 }

  ghost function Those(etw: map<nat, EtwObj>, keys: set<nat>, p: EtwObj -> bool): set<nat> {
    set k | k in keys && k in etw && p(etw[k])
  }

  // The records that have no object, and no dead one either; those of them that wait; and those of a type.
  ghost function UnboundRecords(etw: map<nat, EtwObj>): set<nat> {
    set k | k in etw && etw[k].boundId == 0 && etw[k].orphanTs == 0
  }

  ghost function WaitingRecords(etw: map<nat, EtwObj>): set<nat> {
    set k | k in etw && etw[k].boundId == 0 && etw[k].orphanTs == 0 && etw[k].pendingSince != 0
  }

  ghost function UnboundRecordsOf(etw: map<nat, EtwObj>, kind: Etw.ObjType): set<nat> {
    set k | k in etw && etw[k].boundId == 0 && etw[k].orphanTs == 0 && etw[k].kind == kind
  }

  lemma RecordsByName(etw: map<nat, EtwObj>)
    ensures Those(etw, etw.Keys, IsUnbound) == UnboundRecords(etw)
    ensures Those(etw, etw.Keys, IsWaiting) == WaitingRecords(etw)
  {
  }

  lemma RecordsOfType(etw: map<nat, EtwObj>, kind: Etw.ObjType)
    ensures Those(etw, etw.Keys, UnboundOfType(kind)) == UnboundRecordsOf(etw, kind)
  {
  }

  // Bound records and bound objects are equally many.
  lemma BoundCount(s: State, env: Issued)
    requires Inv(s, env)
    ensures |Those(s.etw, s.etw.Keys, IsBound)| == |BoundIds(s)|
  {
    InvBinding(s, env);
    hide Inv;
    assert Those(s.etw, s.etw.Keys, IsBound) == BoundKeys(s);
    BoundKeysAndIds(s, env);
  }

  lemma InvBinding(s: State, env: Issued)
    requires Inv(s, env)
    ensures LiveIds(s, env) && Binding(s)
  {
    hide LocInv, AccountsInv, Ledger, DriverSizes, LogInv, Queue, Maximal, Forest;
  }

  lemma NoneYet(etw: map<nat, EtwObj>)
    ensures forall p: EtwObj -> bool :: |Those(etw, {}, p)| == 0
  {
    forall p: EtwObj -> bool ensures Those(etw, {}, p) == {} {}
  }

  lemma OneMore(etw: map<nat, EtwObj>, keys: set<nat>, k: nat, p: EtwObj -> bool)
    requires k in etw && k !in keys
    ensures |Those(etw, keys + {k}, p)| == |Those(etw, keys, p)| + if p(etw[k]) then 1 else 0
  {
    assert Those(etw, keys + {k}, p) == Those(etw, keys, p) + if p(etw[k]) then {k} else {};
  }

  lemma TickByParts(s: State, env: Issued, nowMs: nat, nowTs: nat)
    requires Inv(s, env) && env.nowMs <= nowMs
    ensures var e := TickEvent(nowMs, nowTs);
            && Step(s, e) == Tick(s, nowMs, nowTs) && Inv(Tick(s, nowMs, nowTs), Next(s, env, e))
  {
    hide Inv, Tick, NextTick;
    StepKeepsInv(s, env, TickEvent(nowMs, nowTs));
  }

  lemma TickExpiresAll(s: State, env: Issued, nowMs: nat, nowTs: nat)
    requires Inv(s, env) && env.nowMs <= nowMs
    ensures Tick(s, nowMs, nowTs).etw == ExpireAll(s.etw, nowMs) && AllTimedOut(ExpireAll(s.etw, nowMs), nowMs) == {}
  {
    hide Inv, Tick, PendingQueue, QueueSorted;
    InvCounts(s, env);
    TickCounts(s, env, nowMs, nowTs);
  }

  lemma InvCounts(s: State, env: Issued)
    requires Inv(s, env)
    ensures PendingQueue(s, env) && QueueSorted(s)
  {
    hide Objects, Records, Maximal, LocInv, AccountsInv, Ledger, DriverSizes, LogInv;
  }

  lemma StatsLineKeepsInv(s: State, env: Issued, l: Line)
    requires Inv(s, env) && l.StatsLine?
    ensures Inv(s.(log := s.log + [l]), env)
  {
    hide Inv, Read;
    ReadAppend(s.log, l);
    IdleKeepsInv(s, s.(log := s.log + [l]), env);
  }

  // ---- Sums of counters -------------------------------------------------------------------------

  method SumCounters(counters: map<nat, Counter>) returns (sums: Table<Etw.CounterKind>)
    ensures sums == KindSums(counters)
  {
    hide KindSums, Tallied, Kinds;
    sums := map[];
    NoCounterYet();
    var rest := counters;
    ghost var done: map<nat, Counter> := map[];
    while rest.Keys != {}
      invariant done.Keys !! rest.Keys && done + rest == counters
      invariant Tallied(sums, done, CounterBytes) && sums.Keys == Kinds(done)
      decreases rest.Keys
    {
      var id :| id in rest;
      var c := rest[id];
      CounterAdded(sums, done, id, c);
      rest := rest - {id};
      done := done[id := c];
      sums := Add(sums, c.kind, c.bytes);
    }
    assert done == counters;
    AllSummed(sums, counters);
  }

  lemma NoCounterYet()
    ensures Tallied<Etw.CounterKind, Counter>(map[], map[], CounterBytes) && Kinds(map[]) == {}
  {
  }

  lemma CounterAdded(sums: Table<Etw.CounterKind>, done: map<nat, Counter>, id: nat, c: Counter)
    requires Tallied(sums, done, CounterBytes) && sums.Keys == Kinds(done) && id !in done
    ensures Tallied(Add(sums, c.kind, c.bytes), done[id := c], CounterBytes)
    ensures Add(sums, c.kind, c.bytes).Keys == Kinds(done[id := c])
  {
    assert Charges(CounterBytes, c, c.kind, c.bytes);
    hide Tallied;
    TallyAdd(sums, done, CounterBytes, id, c, c.kind, c.bytes);
    KindAdded(done, id, c);
  }

  lemma AllSummed(sums: Table<Etw.CounterKind>, counters: map<nat, Counter>)
    requires Tallied(sums, counters, CounterBytes) && sums.Keys == Kinds(counters)
    ensures sums == KindSums(counters)
  {
    forall kind | kind in Kinds(counters) ensures sums[kind] == Sum(counters, CounterBytes, kind) {
      assert At(sums, kind) == Sum(counters, CounterBytes, kind);
    }
    hide Kinds;
  }

  lemma KindAdded(counters: map<nat, Counter>, id: nat, c: Counter)
    requires id !in counters
    ensures Kinds(counters[id := c]) == Kinds(counters) + {c.kind}
  {
    var more := counters[id := c];
    forall i | i in counters ensures counters[i].kind in Kinds(more) { assert more[i] == counters[i]; }
    assert more[id].kind in Kinds(more);
  }

  // ---- Unbound records by type ------------------------------------------------------------------

  function UnboundOfType(kind: Etw.ObjType): EtwObj -> bool {
    e => IsUnbound(e) && e.kind == kind
  }

  ghost predicate CountsUnbound(t: Table<Etw.ObjType>, etw: map<nat, EtwObj>, keys: set<nat>) {
    forall kind :: At(t, kind) == |Those(etw, keys, UnboundOfType(kind))|
  }

  ghost predicate CountsByType(t: Table<Etw.ObjType>, etw: map<nat, EtwObj>) {
    forall kind :: At(t, kind) == |UnboundRecordsOf(etw, kind)|
  }

  lemma AllByType(t: Table<Etw.ObjType>, etw: map<nat, EtwObj>)
    requires CountsUnbound(t, etw, etw.Keys)
    ensures CountsByType(t, etw)
  {
    hide Those, UnboundRecordsOf;
    forall kind ensures At(t, kind) == |UnboundRecordsOf(etw, kind)| { RecordsOfType(etw, kind); }
  }

  lemma NoUnboundYet(etw: map<nat, EtwObj>)
    ensures CountsUnbound(map[], etw, {})
  {
    NoneYet(etw);
    hide Those;
  }

  lemma OneMoreOfType(t: Table<Etw.ObjType>, etw: map<nat, EtwObj>, keys: set<nat>, k: nat)
    requires CountsUnbound(t, etw, keys) && k in etw && k !in keys
    ensures CountsUnbound(if IsUnbound(etw[k]) then Add(t, etw[k].kind, 1) else t, etw, keys + {k})
  {
    hide Those;
    forall kind
      ensures |Those(etw, keys + {k}, UnboundOfType(kind))|
              == |Those(etw, keys, UnboundOfType(kind))| + if IsUnbound(etw[k]) && etw[k].kind == kind then 1 else 0
    {
      OneMore(etw, keys, k, UnboundOfType(kind));
    }
  }

  predicate HelloFirst(file: seq<Line>) {
    file != [] && file[0].HelloLine?
  }

  lemma ReportLeavesRecords(s: State, nowTs: nat)
    ensures Step(s, ReportEvent(nowTs)).etw == s.etw
  {
    hide KindSums;
  }

  lemma ReportBound(s: State, nowTs: nat)
    ensures BoundIds(ReportCounters(s, nowTs)) == BoundIds(s)
  {
    hide KindSums;
  }

  class Model {
    var live: map<nat, LiveObject>
    var etwEnabled: bool
    var tb: TimeBase
    var childProcess: bool
    var watch: Watch
    var etwObjs: map<nat, EtwObj>
    var ix: Indexes
    var totals: MemoryTotals
    var locBytes: Table<LocCell>
    var drivers: DriverTables
    var stats: Stats

    // Join statistics, refreshed once per second.
    var bound: nat
    var unbound: nat
    var pending: nat
    var unboundByType: Table<Etw.ObjType>
    var lastSecondMs: nat

    // The sidecar file, and the lines produced before there is a time base.
    var sideOpen: bool
    var sideFile: seq<Line>
    var sidePrebuf: seq<Line>

    ghost var log: seq<Line>        // every line handed to the sidecar since it was enabled
    ghost var header: seq<Line>     // the hello line, once written
    ghost var issued: Issued

    ghost function Snap(): State
      reads this
    {
      State(live, etwObjs, ix, locBytes, totals, drivers, stats, tb, watch, log)
    }

    // While the file is open it holds the hello line and every line handed over; before Hello, the buffer does.
    ghost predicate SideOk()
      reads `sideOpen, `tb, `sideFile, `sidePrebuf, `header, `log
    {
      && (sideOpen && tb.helloSeen ==>
            sideFile == header + log && sidePrebuf == [] && |header| == 1 && header[0].HelloLine?)
      && (sideOpen && !tb.helloSeen ==> sideFile == [] && header == [] && sidePrebuf == log)
      && (!sideOpen ==> sidePrebuf == [])
      && forall l | l in log :: !l.HelloLine?
    }

    ghost predicate Valid()
      reads this
    {
      SideOk() && (sideOpen ==> etwEnabled) && (if etwEnabled then Inv(Snap(), issued) else TotalsInv(totals, live))
    }

    // The step e of the join was taken, if the join is enabled; otherwise nothing happened.
    twostate predicate Took(e: Event)
      reads this
    {
      if etwEnabled then Snap() == Step(old(Snap()), e) && issued == Next(old(Snap()), old(issued), e)
      else Snap() == old(Snap()) && issued == old(issued)
    }

    constructor ()
      ensures Valid() && !etwEnabled && !sideOpen && Snap() == INITIAL && issued == NOTHING_ISSUED
    {
      live, etwEnabled, tb := map[], false, TimeBase(false, 0, 0, 0);
      childProcess, watch := false, START;
      etwObjs, ix := map[], Indexes(map[], map[], [], map[], map[], map[], []);
      totals := MemoryTotals(map[], map[], 0, map[]);
      locBytes := map[];
      drivers := DriverTables(map[], map[], map[]);
      stats := Stats(0, 0, 0, 0, 0, 0, 0, 0, 0, 0, 0, map[]);
      bound, unbound, pending, unboundByType, lastSecondMs := 0, 0, 0, map[], 0;
      sideOpen, sideFile, sidePrebuf := false, [], [];
      log, header, issued := [], [], NOTHING_ISSUED;
    }

    // ---- Sidecar --------------------------------------------------------------------------------

    method SideLine(l: Line)
      requires SideOk() && !l.HelloLine?
      modifies `sideFile, `sidePrebuf, `log
      ensures SideOk() && log == old(log) + [l]
    {
      log := log + [l];
      if sideOpen {
        if !tb.helloSeen {
          sidePrebuf := sidePrebuf + [l];
        } else {
          sideFile := sideFile + [l];
          assert header + log == header + old(log) + [l];
        }
      }
    }

    // ---- Locations ------------------------------------------------------------------------------

    method MoveTo(id: nat, l: MemLoc)
      requires id in live
      modifies `live, `locBytes
      ensures Snap() == MoveLoc(old(Snap()), id, l) && id in live
    {
      locBytes := SubLoc(locBytes, live[id]);
      live := live[id := live[id].(effLoc := l)];
      locBytes := AddLoc(locBytes, live[id]);
    }

    method Recompute(id: nat, ts: nat, force: bool)
      requires id in live && SideOk()
      modifies `live, `locBytes, `sideFile, `sidePrebuf, `log
      ensures SideOk() && Snap() == RecomputeLoc(old(Snap()), id, ts, force)
    {
      hide MoveLoc, EffLoc, ViaHeap, OnlyLocations, SideOk;
      var o := live[id];
      var viaHeap, l := ViaHeap(live, o), EffLoc(live, o);
      var changed := l != o.effLoc;
      ghost var s := Snap();
      if changed {
        MoveTo(id, l);
      }
      ghost var t := Snap();
      assert t == if l != o.effLoc then MoveLoc(s, id, l) else s;
      if changed || force || (!o.locReported && l != MemLoc.Unknown) {
        Report(id, LocationLine(ts, id, l, viaHeap));
        assert Snap() == t.(live := t.live[id := t.live[id].(locReported := true)],
         log := t.log + [LocationLine(ts, id, l, viaHeap)]);
      }
    }

    method Report(id: nat, l: Line)
      requires id in live && SideOk() && !l.HelloLine?
      modifies `live, `sideFile, `sidePrebuf, `log
      ensures SideOk()
      ensures live == old(live)[id := old(live)[id].(locReported := true)] && log == old(log) + [l]
      ensures locBytes == old(locBytes)
    {
      hide SideOk;
      live := live[id := live[id].(locReported := true)];
      SideLine(l);
    }

    method RecomputeKids(heap: nat, ts: nat, pick: Order)
      requires SideOk()
      modifies `live, `locBytes, `sideFile, `sidePrebuf, `log
      ensures SideOk() && Snap() == RecomputeChildren(old(Snap()), heap, ts, pick)
    {
      hide RecomputeLoc, OnlyLocations, SideOk;
      if heap in ix.children {
        var kids := pick(ix.children[heap]);
        var i := 0;
        while i < |kids|
          invariant 0 <= i <= |kids| && SideOk()
          invariant Snap() == RecomputeEach(old(Snap()), kids[..i], ts)
        {
          assert kids[..i + 1][..i] == kids[..i];
          if kids[i] in live {
            Recompute(kids[i], ts, false);
          }
          i := i + 1;
        }
        assert kids[..i] == kids;
      }
    }

    method MoveOwn(id: nat, g: MemLoc, ts: nat, force: bool, pick: Order)
      requires id in live && SideOk()
      modifies `live, `locBytes, `sideFile, `sidePrebuf, `log
      ensures SideOk() && Snap() == Relocate(old(Snap()), id, g, ts, force, pick)
    {
      hide RecomputeLoc, RecomputeChildren, SideOk;
      live := live[id := live[id].(ownLoc := g)];
      Recompute(id, ts, force);
      if live[id].kind.Heap? {
        RecomputeKids(id, ts, pick);
      }
    }

    // ---- The join -------------------------------------------------------------------------------

    // The record the object was bound to, if any, lets go of it.
    method Displace(o: LiveObject, key: nat)
      modifies `etwObjs
      ensures etwObjs == Displaced(old(etwObjs), o, key)
    {
      if o.etwKey != 0 && o.etwKey != key && o.etwKey in etwObjs {
        etwObjs := etwObjs[o.etwKey := etwObjs[o.etwKey].(boundId := 0)];
      }
    }

    method AttachEtw(key: nat, id: nat, ts: nat)
      requires key in etwObjs && id in live && SideOk()
      modifies `live, `etwObjs, `stats, `sideFile, `sidePrebuf, `log
      ensures SideOk() && Snap() == Attach(old(Snap()), key, id, ts) && id in live
    {
      hide SideOk, Displaced;
      var o, e := live[id], etwObjs[key];
      Displace(o, key);
      etwObjs := etwObjs[key := e.(boundId := id, pendingSince := 0)];
      live := live[id := o.(etwKey := key)];
      stats := stats.(binds := stats.binds + 1);
      SideLine(BindLine(ts, id, key, e.kind, o.ptr, false));
    }

    method StoreDriverSize(id: nat, size: nat, ts: nat)
      requires id in live && SideOk()
      modifies `live, `sideFile, `sidePrebuf, `log
      ensures SideOk() && Snap() == SetDriverSize(old(Snap()), id, size, ts)
    {
      hide SideOk;
      live := live[id := live[id].(driverSize := size)];
      if size != 0 {
        SideLine(DriverSizeLine(ts, id, size));
      }
    }

    method BindEtw(key: nat, id: nat, ts: nat, pick: Order)
      requires key in etwObjs && id in live && SideOk()
      modifies `live, `etwObjs, `stats, `locBytes, `sideFile, `sidePrebuf, `log
      ensures SideOk() && Snap() == Bind(old(Snap()), key, id, ts, pick)
    {
      hide Relocate, Attach, SetDriverSize, SideOk;
      var o, e := live[id], etwObjs[key];
      AttachEtw(key, id, ts);
      MoveOwn(id, e.group, ts, !o.locReported, pick);
      if IsDriverType(e.kind) {
        StoreDriverSize(id, e.size, ts);
      }
    }

    // The loop over the remembered occupants of an address, oldest first.
    static method FindDead(e: EtwObj, d: seq<DeadObj>) returns (i: nat)
      ensures i == FirstMatch(e, d)
    {
      i := 0;
      while i < |d|
        invariant i <= |d| && forall j | 0 <= j < i :: !MatchesDead(e, d[j])
      {
        if MatchesDead(e, d[i]) { return; }
        i := i + 1;
      }
    }

    method WaitForPipe(key: nat, nowMs: nat)
      requires key in etwObjs
      modifies `etwObjs, `ix
      ensures Snap() == Wait(old(Snap()), key, nowMs)
    {
      etwObjs := etwObjs[key := etwObjs[key].(pendingSince := WaitStamp(nowMs))];
      ix := ix.(pendingQ := ix.pendingQ + [key]);
    }

    method MatchDead(key: nat, x: DeadObj, ts: nat)
      requires key in etwObjs && SideOk()
      modifies `etwObjs, `stats, `sideFile, `sidePrebuf, `log
      ensures SideOk() && Snap() == MatchLate(old(Snap()), key, x, ts)
    {
      hide SideOk;
      var e := etwObjs[key];
      etwObjs := etwObjs[key := e.(orphanTs := if x.destroyed != 0 then x.destroyed else 1, pendingSince := 0)];
      stats := stats.(lateMatches := stats.lateMatches + 1);
      SideLine(BindLine(ts, x.id, key, e.kind, e.address, true));
    }

    method TryBindEtw(key: nat, ts: nat, nowMs: nat, pick: Order)
      requires SideOk()
      modifies `live, `etwObjs, `stats, `locBytes, `ix, `sideFile, `sidePrebuf, `log
      ensures SideOk() && Snap() == TryBind(old(Snap()), key, ts, nowMs, pick)
    {
      hide Bind, MatchLate, Wait, SideOk, CanBind, FirstMatch, Bindable;
      if key !in etwObjs { return; }
      var e := etwObjs[key];
      if e.boundId != 0 || e.orphanTs != 0 || e.address == 0 || !Bindable(e.kind) { return; }
      if e.address in ix.ptrToId && ix.ptrToId[e.address] in live && CanBind(e, live[ix.ptrToId[e.address]]) {
        BindEtw(key, ix.ptrToId[e.address], ts, pick);
        return;
      }
      var d := if e.address in ix.dead then ix.dead[e.address] else [];
      var i := FindDead(e, d);
      if i < |d| {
        MatchDead(key, d[i], ts);
      } else if e.pendingSince == 0 && !e.expired {
        WaitForPipe(key, nowMs);
      }
    }

    method ApplyGroupEtw(key: nat, g: MemLoc, ts: nat, pick: Order)
      requires key in etwObjs && SideOk()
      modifies `live, `etwObjs, `locBytes, `sideFile, `sidePrebuf, `log
      ensures SideOk() && Snap() == ApplyGroup(old(Snap()), key, g, ts, pick)
    {
      hide Relocate, SideOk, OnlyLocations;
      etwObjs := etwObjs[key := etwObjs[key].(group := g)];
      var id := etwObjs[key].boundId;
      if id != 0 && id in live {
        MoveOwn(id, g, ts, false, pick);
      }
    }

    method ApplySizeEtw(key: nat, size: nat, ts: nat)
      requires key in etwObjs && SideOk()
      modifies `live, `etwObjs, `drivers, `sideFile, `sidePrebuf, `log
      ensures SideOk() && Snap() == ApplySize(old(Snap()), key, size, ts)
    {
      hide AddDriver, SubDriver, SetDriverSize, SideOk;
      var e := etwObjs[key];
      if size == 0 || size == e.size { return; }
      drivers := SubDriver(drivers, e);
      etwObjs := etwObjs[key := e.(size := size)];
      drivers := AddDriver(drivers, etwObjs[key]);
      if e.boundId == 0 || !IsDriverType(e.kind) { return; }
      if e.boundId !in live || live[e.boundId].driverSize == size { return; }
      StoreDriverSize(e.boundId, size, ts);
    }

    // ---- Pipe events ----------------------------------------------------------------------------

    method IndexByPtr(id: nat)
      requires id in live
      modifies `live, `ix
      ensures Snap() == IndexPtr(old(Snap()), id) && id in live
    {
      var o := live[id];
      if o.ptr != 0 {
        if o.ptr in ix.dead && ix.dead[o.ptr] != [] {
          var d := ix.dead[o.ptr];
          live := live[id := o.(prevDestroy := d[|d| - 1].destroyed)];
        }
        ix := ix.(ptrToId := ix.ptrToId[o.ptr := id]);
      }
    }

    method IndexByParent(id: nat)
      requires id in live
      modifies `ix
      ensures Snap() == IndexParent(old(Snap()), id)
    {
      var o := live[id];
      if o.alloc.Placed? && o.parent != 0 {
        var siblings := if o.parent in ix.children then ix.children[o.parent] else {};
        ix := ix.(children := ix.children[o.parent := siblings + {id}]);
      }
    }

    method LocateFirst(id: nat, ts: nat)
      requires id in live && SideOk()
      modifies `live, `locBytes, `sideFile, `sidePrebuf, `log
      ensures SideOk() && Snap() == FirstLoc(old(Snap()), id, ts) && id in live
    {
      hide EffLoc, AddLoc, RecomputeLoc, SideOk;
      live := live[id := live[id].(effLoc := EffLoc(live, live[id]))];
      locBytes := AddLoc(locBytes, live[id]);
      if live[id].effLoc != MemLoc.Unknown {
        Recompute(id, ts, true);
      }
    }

    method BindWaiting(id: nat, ts: nat, pick: Order)
      requires id in live && SideOk()
      modifies `live, `etwObjs, `stats, `locBytes, `sideFile, `sidePrebuf, `log
      ensures SideOk() && Snap() == JoinNew(old(Snap()), id, ts, pick)
    {
      hide Bind, CanBind, SideOk;
      var o := live[id];
      if o.ptr != 0 && o.ptr in ix.byAddr {
        var key := ix.byAddr[o.ptr];
        if key in etwObjs && CanBind(etwObjs[key], o) {
          BindEtw(key, id, ts, pick);
        }
      }
    }

    method JoinCreated(id: nat, ts: nat, pick: Order)
      requires id in live && SideOk()
      modifies `live, `etwObjs, `stats, `locBytes, `ix, `sideFile, `sidePrebuf, `log
      ensures SideOk() && Snap() == EtwOnCreated(old(Snap()), id, ts, pick)
    {
      hide IndexPtr, IndexParent, FirstLoc, JoinNew, SideOk;
      IndexByPtr(id);
      IndexByParent(id);
      LocateFirst(id, ts);
      BindWaiting(id, ts, pick);
    }

    method AdmitObject(p: CreatedPayload)
      modifies `live, `totals
      ensures Snap() == Admit(old(Snap()), p) && p.id in live
    {
      live := live[p.id := NewObject(p)];
      totals := AddTotals(totals, NewObject(p));
    }

    method OnCreated(ts: nat, p: CreatedPayload, pick: Order)
      requires Valid() && p.id !in live
      requires etwEnabled ==> Allowed(Snap(), issued, CreatedEvent(ts, p, pick))
      modifies `live, `totals, `etwObjs, `stats, `locBytes, `ix, `sideFile, `sidePrebuf, `log, `issued
      ensures Valid()
      ensures if etwEnabled then Took(CreatedEvent(ts, p, pick)) else Snap() == Admit(old(Snap()), p)
    {
      hide Inv, TotalsInv, Allowed, Next, Step, Admit, EtwOnCreated, AddTotals, NewObject, SideOk;
      ghost var s, env, e := Snap(), issued, CreatedEvent(ts, p, pick);
      CreatedByParts(s, ts, p, pick);
      if !etwEnabled {
        AddTotalsInv(totals, live, p.id, NewObject(p));
      }
      AdmitObject(p);
      if etwEnabled {
        JoinCreated(p.id, ts, pick);
        issued := Next(s, env, e);
        StepKeepsInv(s, env, e);
      }
    }

    method BuryObject(id: nat, ts: nat)
      requires id in live
      modifies `ix
      ensures Snap() == Bury(old(Snap()), id, ts)
    {
      var o := live[id];
      if o.ptr != 0 {
        var d := (if o.ptr in ix.dead then ix.dead[o.ptr] else []) + [DeadObj(id, o.kind, o.prevDestroy, ts)];
        if o.ptr in ix.ptrToId && ix.ptrToId[o.ptr] == id {
          ix := ix.(ptrToId := ix.ptrToId - {o.ptr});
        }
        ix := ix.(dead := ix.dead[o.ptr := if |d| > DEAD_PER_ADDRESS then d[1..] else d],
                  hist := ix.hist + [(ts, o.ptr)]);
      }
    }

    method OrphanRecord(id: nat, ts: nat)
      requires id in live
      modifies `live, `etwObjs
      ensures Snap() == Orphan(old(Snap()), id, ts) && id in live
    {
      var key := live[id].etwKey;
      if key != 0 {
        if key in etwObjs && etwObjs[key].boundId == id {
          etwObjs := etwObjs[key := etwObjs[key].(boundId := 0, orphanTs := if ts != 0 then ts else 1)];
        }
        live := live[id := live[id].(etwKey := 0)];
      }
    }

    method UnindexByParent(id: nat)
      requires id in live
      modifies `ix
      ensures Snap() == UnindexParent(old(Snap()), id)
    {
      var o := live[id];
      if o.alloc.Placed? && o.parent != 0 && o.parent in ix.children {
        var rest := ix.children[o.parent] - {id};
        ix := ix.(children := if rest == {} then ix.children - {o.parent} else ix.children[o.parent := rest]);
      }
    }

    method FallBackTo(id: nat, ts: nat)
      requires id in live && SideOk()
      modifies `live, `locBytes, `sideFile, `sidePrebuf, `log
      ensures SideOk() && Snap() == FallBack(old(Snap()), id, ts)
    {
      hide MoveLoc, OnlyLocations, SideOk;
      var l := live[id].ownLoc;
      if live[id].effLoc != l {
        MoveTo(id, l);
        SideLine(LocationLine(ts, id, l, false));
      }
    }

    method AbandonKids(id: nat, ts: nat, pick: Order)
      requires id in live && SideOk()
      modifies `live, `locBytes, `ix, `sideFile, `sidePrebuf, `log
      ensures SideOk() && Snap() == AbandonChildren(old(Snap()), id, ts, pick)
    {
      hide FallBack, OnlyLocations, SideOk;
      if live[id].kind.Heap? && id in ix.children {
        var kids := pick(ix.children[id]);
        ix := ix.(children := ix.children - {id});
        ghost var s := Snap();
        var i := 0;
        while i < |kids|
          invariant 0 <= i <= |kids| && SideOk()
          invariant Snap() == FallBackEach(s, kids[..i], ts)
        {
          assert kids[..i + 1][..i] == kids[..i];
          if kids[i] in live {
            FallBackTo(kids[i], ts);
          }
          i := i + 1;
        }
        assert kids[..i] == kids;
      }
    }

    method JoinDestroyed(id: nat, ts: nat, pick: Order)
      requires id in live && SideOk()
      modifies `live, `etwObjs, `locBytes, `ix, `sideFile, `sidePrebuf, `log
      ensures SideOk() && Snap() == EtwOnDestroyed(old(Snap()), id, ts, pick)
    {
      hide SubLoc, Bury, Orphan, UnindexParent, AbandonChildren, SideOk;
      locBytes := SubLoc(locBytes, live[id]);
      BuryObject(id, ts);
      OrphanRecord(id, ts);
      UnindexByParent(id);
      AbandonKids(id, ts, pick);
    }

    method ForgetObject(id: nat)
      requires id in live
      modifies `live, `totals
      ensures Snap() == Forget(old(Snap()), id)
    {
      totals := SubTotals(totals, live[id]);
      live := live - {id};
    }

    method OnDestroyed(ts: nat, id: nat, pick: Order)
      requires Valid() && Enumerates(pick)
      modifies `live, `totals, `etwObjs, `stats, `locBytes, `ix, `sideFile, `sidePrebuf, `log
      ensures Valid()
      ensures if etwEnabled then Took(DestroyedEvent(ts, id, pick))
              else Snap() == if id in old(live) then Forget(old(Snap()), id) else old(Snap())
    {
      hide Inv, TotalsInv, Next, Step, Allowed, Forget, EtwOnDestroyed, SubTotals, SideOk;
      ghost var s, env, e := Snap(), issued, DestroyedEvent(ts, id, pick);
      DestroyedByParts(s, env, ts, id, pick);
      if !etwEnabled && id in live {
        SubTotalsInv(totals, live, id);
      }
      if etwEnabled {
        StepKeepsInv(s, env, e);
      }
      if id !in live { return; }
      if etwEnabled {
        JoinDestroyed(id, ts, pick);
      }
      if id in live {
        ForgetObject(id);
      }
    }

    // The launcher's time base; the first one writes the header line and releases the buffered lines.
    method OnHello(ts: nat, freq: nat, start: nat)
      requires Valid()
      modifies `tb, `sideFile, `sidePrebuf, `header
      ensures Valid() && Snap() == Step(old(Snap()), HelloEvent(freq, start)) && sidePrebuf == []
      ensures sideOpen && !old(tb).helloSeen ==> sideFile == [HelloLine(ts)] + log
    {
      hide Inv, TotalsInv, Step, SideOk;
      ghost var s, env, e := Snap(), issued, HelloEvent(freq, start);
      HelloByParts(s, env, freq, start);
      if etwEnabled {
        StepKeepsInv(s, env, e);
      }
      StartClock(ts, freq, start);
    }

    method StartClock(ts: nat, freq: nat, start: nat)
      requires SideOk() && (sideOpen ==> etwEnabled)
      modifies `tb, `sideFile, `sidePrebuf, `header
      ensures SideOk() && tb == Timeline.OnHello(freq, start) && sidePrebuf == []
      ensures sideOpen && !old(tb).helloSeen ==> sideFile == [HelloLine(ts)] + log
    {
      var first := !tb.helloSeen;
      tb := Timeline.OnHello(freq, start);
      if etwEnabled && first && sideOpen {
        sideFile := sideFile + [HelloLine(ts)];
        sideFile := sideFile + sidePrebuf;
        sidePrebuf := [];
        header := [HelloLine(ts)];
      }
    }

    // ---- The child process ----------------------------------------------------------------------

    method SetChildProcess(hasHandle: bool)
      modifies `childProcess
      ensures childProcess == hasHandle
    {
      childProcess := hasHandle;
    }

    method LookAtChild(p: Probe)
      requires SideOk() && p.hasHandle == childProcess
      modifies `watch, `sideFile, `sidePrebuf, `log
      ensures SideOk() && Snap() == Poll(old(Snap()), p)
    {
      hide SideOk;
      if watch.exiting || !childProcess { return; }
      match p.child {
        case QueryFailed =>
        case Running =>
          watch := watch.(aliveTs := p.nowTs);
        case Exiting =>
          watch := watch.(exiting := true, exitCutoff := After(watch.aliveTs));
          SideLine(TargetExitingLine(watch.aliveTs, p.nowTs));
      }
    }

    // Also called without --etw.
    method PollChild(p: Probe)
      requires Valid() && p.hasHandle == childProcess
      modifies `watch, `sideFile, `sidePrebuf, `log
      ensures Valid() && Snap() == Step(old(Snap()), PollEvent(p))
    {
      hide Inv, TotalsInv, SideOk, Poll, Step, Allowed, Next;
      QuietByParts(Snap(), issued, PollEvent(p));
      if etwEnabled {
        StepKeepsInv(Snap(), issued, PollEvent(p));
      }
      LookAtChild(p);
    }

    method AfterChildExit(ts: nat, p: Probe) returns (ignored: bool)
      requires SideOk() && p.hasHandle == childProcess
      modifies `watch, `sideFile, `sidePrebuf, `log
      ensures SideOk() && Snap() == Filtered(old(Snap()), ts, p) && ignored == Ignored(watch, ts)
    {
      hide Poll, SideOk;
      if ts > watch.aliveTs {
        LookAtChild(p);
      }
      ignored := Passed(watch.exitCutoff, ts) || Passed(watch.exitTs, ts);
    }

    method SetChildExitQpc(qpc: nat)
      requires Valid()
      modifies `watch
      ensures Valid()
      ensures Snap() == if tb.helloSeen && tb.freq != 0 then Step(old(Snap()), ChildExitEvent(NowTs(tb, qpc)))
                        else old(Snap())
    {
      hide Inv, TotalsInv, TicksToNs, SideOk, Step, Allowed, Next;
      if !tb.helloSeen || tb.freq == 0 { return; }
      QuietByParts(Snap(), issued, ChildExitEvent(NowTs(tb, qpc)));
      if etwEnabled {
        StepKeepsInv(Snap(), issued, ChildExitEvent(NowTs(tb, qpc)));
      }
      watch := watch.(exitTs := After(if qpc > tb.start then TicksToNs(qpc - tb.start, tb.freq) else 0));
    }

    // ---- Switching the join on and off ----------------------------------------------------------

    // Nothing of the state is reset, so the join is in order if nothing has arrived yet.
    method EnableEtw(opens: bool)
      modifies `etwEnabled, `sideOpen, `sideFile, `header, `issued
      ensures etwEnabled && sideOpen == opens && Snap() == old(Snap()) && sideFile == header == []
      ensures Snap() == INITIAL && sidePrebuf == [] ==> Valid() && issued == NOTHING_ISSUED
    {
      InitialInv();
      hide Inv, TotalsInv;
      etwEnabled, sideOpen, sideFile, header, issued := true, opens, [], [], NOTHING_ISSUED;
    }

    // The totals stay exact without the join.
    method DisableEtw()
      requires Valid()
      modifies `etwEnabled, `sideOpen, `sideFile, `sidePrebuf
      ensures Valid() && !etwEnabled && !sideOpen && Snap() == old(Snap())
    {
      hide JoinInv, LocInv, Ledger, DriverSizes, LogInv, TotalsInv, DriversInv;
      etwEnabled := false;
      if sideOpen {
        sideOpen := false;
        sideFile := [];
      }
      sidePrebuf := [];
    }

    // ---- ETW callbacks --------------------------------------------------------------------------

    predicate Knows(lib: nat)
      reads `ix, `etwObjs
    {
      lib in ix.alias && ix.alias[lib] in etwObjs
    }

    method AddRecord(abs: int, lib: nat, kind: Etw.ObjType, size: nat, group: Etw.Group)
      modifies `drivers, `etwObjs, `ix, `stats
      ensures Snap() == EtwCreated(old(Snap()), abs, lib, kind, size, group)
    {
      hide AddDriver, ConvTs;
      if lib in ix.alias { return; }
      var e := EtwObj(kind, 0, size, FromGroup(group), ConvTs(tb, abs), 0, 0, 0, false, []);
      drivers := AddDriver(drivers, e);
      etwObjs := etwObjs[lib := e];
      ix := ix.(alias := ix.alias[lib := lib]);
      stats := stats.(created := stats.created + 1);
    }

    method OnEtwObjectCreated(abs: int, lib: nat, kind: Etw.ObjType, size: nat, group: Etw.Group)
      requires Valid()
      requires etwEnabled ==> Allowed(Snap(), issued, EtwCreatedEvent(abs, lib, kind, size, group))
      modifies `drivers, `etwObjs, `ix, `stats, `issued
      ensures Valid() && Took(EtwCreatedEvent(abs, lib, kind, size, group))
    {
      hide Inv, TotalsInv, SideOk, Step, Allowed, Next, EtwCreated;
      if !etwEnabled { return; }
      ghost var s, env, e := Snap(), issued, EtwCreatedEvent(abs, lib, kind, size, group);
      QuietByParts(s, env, e);
      StepKeepsInv(s, env, e);
      AddRecord(abs, lib, kind, size, group);
      issued := Next(s, env, e);
    }

    method AbsorbRecord(e: EtwObj, into: nat, pick: Order)
      requires into in etwObjs && SideOk()
      modifies `live, `etwObjs, `locBytes, `drivers, `sideFile, `sidePrebuf, `log
      ensures SideOk() && Snap() == Absorb(old(Snap()), e, into, pick)
    {
      hide ApplySize, ApplyGroup, SideOk;
      ApplySizeKeys(Snap(), into, e.size, e.createdTs);
      if e.size != 0 {
        ApplySizeEtw(into, e.size, e.createdTs);
      }
      if e.group != MemLoc.Unknown && e.group != etwObjs[into].group {
        ApplyGroupEtw(into, e.group, e.createdTs, pick);
      }
    }

    method MergeRecord(key: nat, into: nat)
      requires key in etwObjs && into in etwObjs && key != into
      modifies `etwObjs, `ix, `drivers
      ensures Snap() == Merge(old(Snap()), key, into)
    {
      hide SubDriver;
      drivers := SubDriver(drivers, etwObjs[key]);
      etwObjs := etwObjs - {key};
      etwObjs := etwObjs[into := etwObjs[into].(aliases := etwObjs[into].aliases + [key])];
      ix := ix.(alias := ix.alias[key := into]);
    }

    method FoldRecord(key: nat, into: nat, pick: Order)
      requires key in etwObjs && into in etwObjs && key != into && SideOk()
      modifies `live, `etwObjs, `ix, `locBytes, `drivers, `stats, `sideFile, `sidePrebuf, `log
      ensures SideOk() && Snap() == Fold(old(Snap()), key, into, pick)
    {
      hide Absorb, Merge, SideOk;
      var e := etwObjs[key];
      stats := stats.(rundownDuplicates := stats.rundownDuplicates + 1);
      AbsorbRecord(e, into, pick);
      MergeRecord(key, into);
    }

    method PlaceRecord(key: nat, addr: nat)
      requires key in etwObjs && SideOk()
      modifies `etwObjs, `ix, `sideFile, `sidePrebuf, `log
      ensures SideOk() && Snap() == SetAddress(old(Snap()), key, addr)
    {
      hide SideOk;
      var e := etwObjs[key];
      etwObjs := etwObjs[key := e.(address := addr)];
      ix := ix.(byAddr := ix.byAddr[addr := key]);
      SideLine(ObjectLine(e.createdTs, key, e.kind, addr, e.size, e.group));
    }

    method JoinAddress(lib: nat, addr: nat, nowMs: nat, pick: Order)
      requires SideOk()
      modifies `live, `etwObjs, `ix, `locBytes, `drivers, `stats, `sideFile, `sidePrebuf, `log
      ensures SideOk() && Snap() == EtwAddress(old(Snap()), lib, addr, nowMs, pick)
    {
      hide TryBind, Fold, SetAddress, SideOk;
      if addr == 0 || !Knows(lib) || etwObjs[ix.alias[lib]].address != 0 { return; }
      var key := ix.alias[lib];
      var ts := etwObjs[key].createdTs;
      if addr in ix.byAddr && ix.byAddr[addr] != key && ix.byAddr[addr] in etwObjs &&
         etwObjs[ix.byAddr[addr]].kind == etwObjs[key].kind {
        var into := ix.byAddr[addr];
        FoldRecord(key, into, pick);
        TryBindEtw(into, ts, nowMs, pick);
      } else {
        PlaceRecord(key, addr);
        TryBindEtw(key, ts, nowMs, pick);
      }
    }

    method OnEtwObjectAddress(lib: nat, addr: nat, nowMs: nat, pick: Order)
      requires Valid()
      requires etwEnabled ==> Allowed(Snap(), issued, EtwAddressEvent(lib, addr, nowMs, pick))
      modifies `live, `etwObjs, `ix, `locBytes, `drivers, `stats, `sideFile, `sidePrebuf, `log, `issued
      ensures Valid() && Took(EtwAddressEvent(lib, addr, nowMs, pick))
    {
      hide Inv, TotalsInv, SideOk, Step, Allowed, Next, EtwAddress;
      if !etwEnabled { return; }
      ghost var s, env, e := Snap(), issued, EtwAddressEvent(lib, addr, nowMs, pick);
      QuietByParts(s, env, e);
      StepKeepsInv(s, env, e);
      JoinAddress(lib, addr, nowMs, pick);
      issued := Next(s, env, e);
    }

    method LetGo(key: nat)
      requires key in etwObjs
      modifies `live
      ensures var id := etwObjs[key].boundId;
              live == if id != 0 && id in old(live) && old(live)[id].etwKey == key
                      then old(live)[id := old(live)[id].(etwKey := 0)] else old(live)
    {
      var id := etwObjs[key].boundId;
      if id != 0 && id in live && live[id].etwKey == key {
        live := live[id := live[id].(etwKey := 0)];
      }
    }

    // The loop that erases the aliases of a record.
    static method EraseAliases(alias: map<nat, nat>, ids: seq<nat>) returns (rest: map<nat, nat>)
      ensures rest == alias - Elements(ids)
    {
      rest := alias;
      var i := 0;
      while i < |ids|
        invariant i <= |ids| && rest == alias - Elements(ids[..i])
      {
        assert Elements(ids[..i + 1]) == Elements(ids[..i]) + {ids[i]};
        rest := rest - {ids[i]};
        i := i + 1;
      }
      assert ids[..i] == ids;
    }

    method UnindexRecord(key: nat)
      requires key in etwObjs
      modifies `ix
      ensures ix == EtwDestroyedIndexes(old(ix), key, etwObjs[key])
    {
      var e := etwObjs[key];
      var rest := EraseAliases(ix.alias, e.aliases);
      ix := ix.(alias := rest - {key});
      if e.address != 0 && e.address in ix.byAddr && ix.byAddr[e.address] == key {
        ix := ix.(byAddr := ix.byAddr - {e.address});
      }
    }

    method EraseRecord(key: nat)
      requires key in etwObjs
      modifies `live, `etwObjs, `ix, `drivers
      ensures Snap() == Erased(old(Snap()), key)
    {
      hide SubDriver, EtwDestroyedIndexes;
      LetGo(key);
      UnindexRecord(key);
      drivers := SubDriver(drivers, etwObjs[key]);
      etwObjs := etwObjs - {key};
    }

    method RemoveRecord(abs: int, lib: nat)
      requires SideOk()
      modifies `live, `etwObjs, `ix, `drivers, `sideFile, `sidePrebuf, `log
      ensures SideOk() && Snap() == EtwDestroyed(old(Snap()), abs, lib)
    {
      hide SideOk, ConvTs, Erased;
      if !Knows(lib) { return; }
      var key := ix.alias[lib];
      if etwObjs[key].address != 0 {
        SideLine(ObjectDestroyedLine(ConvTs(tb, abs), key));
      }
      EraseRecord(key);
    }

    method OnEtwObjectDestroyed(abs: int, lib: nat)
      requires Valid()
      modifies `live, `etwObjs, `ix, `drivers, `sideFile, `sidePrebuf, `log, `issued
      ensures Valid() && Took(EtwDestroyedEvent(abs, lib))
    {
      hide Inv, TotalsInv, SideOk, Step, Allowed, Next, EtwDestroyed;
      if !etwEnabled { return; }
      ghost var s, env, e := Snap(), issued, EtwDestroyedEvent(abs, lib);
      QuietByParts(s, env, e);
      StepKeepsInv(s, env, e);
      RemoveRecord(abs, lib);
      issued := Next(s, env, e);
    }

    method OnEtwObjectSize(abs: int, lib: nat, size: nat)
      requires Valid()
      modifies `live, `etwObjs, `drivers, `sideFile, `sidePrebuf, `log
      ensures Valid() && Took(EtwSizeEvent(abs, lib, size))
    {
      hide Inv, TotalsInv, SideOk, Step, Allowed, Next, ApplySize, ConvTs;
      if !etwEnabled { return; }
      QuietByParts(Snap(), issued, EtwSizeEvent(abs, lib, size));
      StepKeepsInv(Snap(), issued, EtwSizeEvent(abs, lib, size));
      if Knows(lib) {
        ApplySizeEtw(ix.alias[lib], size, ConvTs(tb, abs));
      }
    }

    method ChangeGroup(abs: int, lib: nat, group: Etw.Group, p: Probe, pick: Order)
      requires SideOk() && p.hasHandle == childProcess
      modifies `live, `etwObjs, `locBytes, `stats, `watch, `sideFile, `sidePrebuf, `log
      ensures SideOk() && Snap() == EtwGroup(old(Snap()), abs, lib, group, p, pick)
    {
      hide SideOk, ApplyGroup, ConvTs, Filtered, Ignored, FromGroup;
      var ts := ConvTs(tb, abs);
      var ignored := AfterChildExit(ts, p);
      if ignored {
        stats := stats.(postExitIgnored := stats.postExitIgnored + 1);
      } else {
        stats := stats.(groupChanges := stats.groupChanges + 1);
        if Knows(lib) && etwObjs[ix.alias[lib]].group != FromGroup(group) {
          ApplyGroupEtw(ix.alias[lib], FromGroup(group), ts, pick);
        }
      }
    }

    // One batch; looks[i] is what a look at the child would find while the i-th change is processed.
    method OnEtwGroupChanges(changes: seq<GroupChange>, looks: seq<Probe>, pick: Order)
      requires Valid() && Enumerates(pick)
      requires |looks| == |changes| && forall i | 0 <= i < |looks| :: looks[i].hasHandle == childProcess
      modifies `live, `etwObjs, `locBytes, `stats, `watch, `sideFile, `sidePrebuf, `log
      ensures Valid()
      ensures Snap() == if etwEnabled then Run(old(Snap()), GroupEvents(changes, looks, pick)) else old(Snap())
    {
      hide Inv, TotalsInv, SideOk, Run, EtwGroup, GroupEvents;
      if !etwEnabled { return; }
      ghost var es := GroupEvents(changes, looks, pick);
      ghost var s := Snap();
      RunNone(s, es);
      var i := 0;
      while i < |changes|
        invariant i <= |changes| && SideOk() && Inv(Run(s, es[..i]), issued)
        invariant Snap() == Run(s, es[..i])
      {
        GroupStep(s, issued, changes, looks, pick, i);
        ChangeGroup(changes[i].ts, changes[i].lib, changes[i].group, looks[i], pick);
        i := i + 1;
      }
      assert es[..i] == es;
    }

    method CountOp(op: Etw.ResidencyOp)
      modifies `stats
      ensures stats == CountResidency(old(stats), op)
    {
      match op {
        case MakeResident => stats := stats.(makeResident := stats.makeResident + 1);
        case Evict => stats := stats.(evict := stats.evict + 1);
        case PageIn => stats := stats.(pageIns := stats.pageIns + 1);
        case PageOut => stats := stats.(pageOuts := stats.pageOuts + 1);
      }
    }

    method NoteResidency(abs: int, lib: nat, op: Etw.ResidencyOp, p: Probe)
      requires SideOk() && p.hasHandle == childProcess
      modifies `stats, `watch, `sideFile, `sidePrebuf, `log
      ensures SideOk() && Snap() == EtwResidency(old(Snap()), abs, lib, op, p)
    {
      hide SideOk, ConvTs, Filtered, Ignored, CountResidency;
      var ts := ConvTs(tb, abs);
      var ignored := AfterChildExit(ts, p);
      if ignored {
        stats := stats.(postExitIgnored := stats.postExitIgnored + 1);
        return;
      }
      CountOp(op);
      if op.MakeResident? || op.Evict? { return; }
      if Knows(lib) {
        SideLine(ResidencyLine(ts, etwObjs[ix.alias[lib]].boundId, ix.alias[lib], op));
      } else {
        SideLine(ResidencyLine(ts, 0, lib, op));
      }
    }

    method OnEtwResidency(abs: int, lib: nat, op: Etw.ResidencyOp, p: Probe)
      requires Valid() && p.hasHandle == childProcess
      modifies `stats, `watch, `sideFile, `sidePrebuf, `log
      ensures Valid() && Took(EtwResidencyEvent(abs, lib, op, p))
    {
      hide Inv, TotalsInv, SideOk, Step, Allowed, Next, EtwResidency;
      if !etwEnabled { return; }
      QuietByParts(Snap(), issued, EtwResidencyEvent(abs, lib, op, p));
      StepKeepsInv(Snap(), issued, EtwResidencyEvent(abs, lib, op, p));
      NoteResidency(abs, lib, op, p);
    }

    method OnEtwCounter(abs: int, counter: nat, kind: Etw.CounterKind, mb: real, p: Probe)
      requires Valid() && p.hasHandle == childProcess
      modifies `stats, `watch, `sideFile, `sidePrebuf, `log
      ensures Valid() && Took(EtwCounterEvent(abs, counter, kind, mb, p))
    {
      hide Inv, TotalsInv, SideOk, Step, Allowed, Next, ConvTs, Filtered, Ignored, FromMb;
      if !etwEnabled { return; }
      QuietByParts(Snap(), issued, EtwCounterEvent(abs, counter, kind, mb, p));
      StepKeepsInv(Snap(), issued, EtwCounterEvent(abs, counter, kind, mb, p));
      if abs <= 0 { return; }
      var ignored := AfterChildExit(ConvTs(tb, abs), p);
      if !ignored {
        stats := stats.(counters := stats.counters[counter := Counter(kind, FromMb(mb))]);
      }
    }

    // ---- The periodic tick ----------------------------------------------------------------------

    method DropExpired(nowMs: nat)
      modifies `etwObjs, `ix, `stats
      ensures Snap() == ExpireQueue(old(Snap()), nowMs)
    {
      ghost var s := Snap();
      while ix.pendingQ != []
        invariant ExpireQueue(Snap(), nowMs) == ExpireQueue(s, nowMs)
        decreases |ix.pendingQ|
      {
        var key := ix.pendingQ[0];
        if key !in etwObjs || etwObjs[key].boundId != 0 || etwObjs[key].pendingSince == 0 {
          ix := ix.(pendingQ := ix.pendingQ[1..]);
        } else {
          if Waited(nowMs, etwObjs[key].pendingSince) < PENDING_TIMEOUT_MS { break; }
          etwObjs := etwObjs[key := etwObjs[key].(pendingSince := 0, expired := true)];
          stats := stats.(pendingExpired := stats.pendingExpired + 1);
          ix := ix.(pendingQ := ix.pendingQ[1..]);
        }
      }
    }

    // The occupants of one address that died before the horizon.
    static method DropOldest(d: seq<DeadObj>, horizon: nat) returns (rest: seq<DeadObj>)
      ensures rest == DropOld(d, horizon)
    {
      rest := d;
      while rest != [] && rest[0].destroyed < horizon
        invariant DropOld(rest, horizon) == DropOld(d, horizon)
        decreases |rest|
      {
        rest := rest[1..];
      }
    }

    method ForgetOld(nowTs: nat)
      modifies `ix
      ensures Snap() == Prune(old(Snap()), nowTs)
    {
      hide DropOld;
      ghost var s := Snap();
      while ix.hist != [] && nowTs > DESTROY_HISTORY_NS && ix.hist[0].0 < nowTs - DESTROY_HISTORY_NS
        invariant Prune(Snap(), nowTs) == Prune(s, nowTs)
        decreases |ix.hist|
      {
        var a := ix.hist[0].1;
        if a in ix.dead {
          var rest := DropOldest(ix.dead[a], nowTs - DESTROY_HISTORY_NS);
          ix := ix.(dead := if rest == [] then ix.dead - {a} else ix.dead[a := rest]);
        }
        ix := ix.(hist := ix.hist[1..]);
      }
    }

    // The statistics are recounts over the records.
    method RefreshJoinStats()
      modifies `bound, `unbound, `pending, `unboundByType
      ensures bound == |Those(etwObjs, etwObjs.Keys, IsBound)|
      ensures unbound == |UnboundRecords(etwObjs)| && pending == |WaitingRecords(etwObjs)|
      ensures CountsByType(unboundByType, etwObjs)
    {
      hide Those, CountsUnbound, CountsByType, UnboundRecords, WaitingRecords;
      bound, unbound, pending, unboundByType := 0, 0, 0, map[];
      NoUnboundYet(etwObjs);
      var keys := etwObjs.Keys;
      ghost var done := {};
      NoneYet(etwObjs);
      while keys != {}
        invariant keys <= etwObjs.Keys && done == etwObjs.Keys - keys
        invariant bound == |Those(etwObjs, done, IsBound)|
        invariant unbound == |Those(etwObjs, done, IsUnbound)|
        invariant pending == |Those(etwObjs, done, IsWaiting)|
        invariant CountsUnbound(unboundByType, etwObjs, done)
        decreases keys
      {
        var k :| k in keys;
        OneMore(etwObjs, done, k, IsBound);
        OneMore(etwObjs, done, k, IsUnbound);
        OneMore(etwObjs, done, k, IsWaiting);
        OneMoreOfType(unboundByType, etwObjs, done, k);
        keys := keys - {k};
        done := done + {k};
        var e := etwObjs[k];
        if e.boundId != 0 {
          bound := bound + 1;
        } else if e.orphanTs == 0 {
          unbound := unbound + 1;
          unboundByType := Add(unboundByType, e.kind, 1);
          if e.pendingSince != 0 {
            pending := pending + 1;
          }
        }
      }
      assert done == etwObjs.Keys;
      RecordsByName(etwObjs);
      AllByType(unboundByType, etwObjs);
    }

    method TickJoin(nowMs: nat, nowTs: nat)
      modifies `etwObjs, `ix, `stats
      ensures Snap() == Tick(old(Snap()), nowMs, nowTs)
    {
      hide ExpireQueue, Prune;
      DropExpired(nowMs);
      ForgetOld(nowTs);
    }

    // Nothing is written before the first counter.
    method WriteCounters(nowTs: nat)
      requires SideOk()
      modifies `sideFile, `sidePrebuf, `log
      ensures SideOk() && Snap() == ReportCounters(old(Snap()), nowTs)
    {
      hide SideOk, KindSums;
      if stats.counters != map[] {
        var sums := SumCounters(stats.counters);
        SideLine(CountersLine(nowTs, sums, AnyDemoted(sums), DemotedSum(sums), stats.pageIns, stats.pageOuts));
      }
    }

    // The statistics as they are shown.
    ghost predicate Refreshed()
      reads this
    {
      && bound == |BoundIds(Snap())|
      && unbound == |UnboundRecords(etwObjs)| && pending == |WaitingRecords(etwObjs)|
      && CountsByType(unboundByType, etwObjs)
    }

    method ReportEachSecond(nowMs: nat, nowTs: nat)
      requires Inv(Snap(), issued) && SideOk()
      modifies `bound, `unbound, `pending, `unboundByType, `lastSecondMs, `sideFile, `sidePrebuf, `log
      ensures SideOk() && Inv(Snap(), issued)
      ensures var due := Waited(nowMs, old(lastSecondMs)) >= 1000;
              Snap() == (if due then Step(old(Snap()), ReportEvent(nowTs)) else old(Snap())) && (due ==> Refreshed())
    {
      hide Inv, SideOk, Those, CountsByType, UnboundRecords, WaitingRecords, BoundIds, Step, ReportCounters, Allowed,
           Next;
      if Waited(nowMs, lastSecondMs) < 1000 { return; }
      lastSecondMs := nowMs;
      RefreshJoinStats();
      BoundCount(Snap(), issued);
      ghost var s := Snap();
      QuietByParts(s, issued, ReportEvent(nowTs));
      StepKeepsInv(s, issued, ReportEvent(nowTs));
      WriteCounters(nowTs);
      ReportBound(s, nowTs);
    }

    // About ten times a second; once per second with a report. nowMs and qpc are the two clocks it samples.
    method EtwTick(nowMs: nat, qpc: nat)
      requires Valid() && (etwEnabled ==> issued.nowMs <= nowMs)
      modifies `etwObjs, `ix, `stats, `bound, `unbound, `pending, `unboundByType, `lastSecondMs, `issued,
               `sideFile, `sidePrebuf, `log
      ensures Valid()
      ensures var nowTs := NowTs(tb, qpc);
              var ticked := Step(old(Snap()), TickEvent(nowMs, nowTs));
              var due := Waited(nowMs, old(lastSecondMs)) >= 1000;
              if etwEnabled
              then Snap() == (if due then Step(ticked, ReportEvent(nowTs)) else ticked) && (due ==> Refreshed()) &&
                   issued == Next(old(Snap()), old(issued), TickEvent(nowMs, nowTs))
              else Snap() == old(Snap()) && issued == old(issued)
      ensures etwEnabled ==> etwObjs == ExpireAll(old(etwObjs), nowMs) && AllTimedOut(etwObjs, nowMs) == {}
    {
      hide Inv, TotalsInv, SideOk, Step, Next, ExpireAll, AllTimedOut, Tick, NowTs, Refreshed;
      if !etwEnabled { return; }
      ghost var s, env := Snap(), issued;
      var nowTs := NowTs(tb, qpc);
      TickByParts(s, env, nowMs, nowTs);
      TickExpiresAll(s, env, nowMs, nowTs);
      TickJoin(nowMs, nowTs);
      issued := Next(s, env, TickEvent(nowMs, nowTs));
      ReportLeavesRecords(Snap(), nowTs);
      ReportEachSecond(nowMs, nowTs);
    }

    method CloseSide(l: Line)
      requires SideOk() && sideOpen && !l.HelloLine?
      modifies `sideOpen, `sideFile, `sidePrebuf, `log
      ensures SideOk() && !sideOpen && log == old(log) + [l] && sideFile == header + log
      ensures HelloFirst(sideFile) <==> tb.helloSeen
    {
      SideLine(l);
      if sidePrebuf != [] {
        sideFile := sideFile + sidePrebuf;
        sidePrebuf := [];
      }
      sideOpen := false;
    }

    // After the session stopped. Every line ever handed over is then in the file; the first one is the hello line
    // exactly if a Hello arrived, the last one the statistics.
    method FinishEtw(qpc: nat)
      requires Valid()
      modifies `bound, `unbound, `pending, `unboundByType, `sideOpen, `sideFile, `sidePrebuf, `log
      ensures Valid() && !sideOpen && (etwEnabled ==> Refreshed())
      ensures old(sideOpen) ==>
                && sideFile == header + log && (HelloFirst(sideFile) <==> tb.helloSeen)
                && log == old(log) + [StatsLine(NowTs(tb, qpc), SummaryOf(stats, bound, unbound, unboundByType))]
      ensures !old(sideOpen) ==> log == old(log) && sideFile == old(sideFile)
    {
      hide Inv, TotalsInv, NowTs, SideOk, Those, CountsByType, UnboundRecords, WaitingRecords, BoundIds;
      if !etwEnabled { return; }
      RefreshJoinStats();
      BoundCount(Snap(), issued);
      if sideOpen {
        var l := StatsLine(NowTs(tb, qpc), SummaryOf(stats, bound, unbound, unboundByType));
        StatsLineKeepsInv(Snap(), issued, l);
        LineBound(Snap(), l);
        CloseSide(l);
      }
    }
  }

  lemma LineBound(s: State, l: Line)
    ensures BoundIds(s.(log := s.log + [l])) == BoundIds(s)
  {
  }
}
