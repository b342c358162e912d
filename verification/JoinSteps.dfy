// What each step of the launcher's Model does to its state (src/launcher/Model.cpp), as functions.
// `pick` stands for the iteration order of an unordered_set: any sequence of the set's elements.

module JoinSteps {
  import opened Wire
  import opened Tallies
  import opened Timeline
  import opened ChildWatch
  import opened JoinState
  import Etw

  type Order = set<nat> -> seq<nat>

  // ---- Totals -----------------------------------------------------------------------------------

  function AddTotals(t: MemoryTotals, o: LiveObject): MemoryTotals {
    var c := AllocCell(HeapBucket(o.heapType), o.alloc);
    MemoryTotals(Add(t.bytes, c, o.size), Add(t.counts, c, 1), t.liveBytes + o.size, Add(t.perType, o.kind, 1))
  }

  function SubTotals(t: MemoryTotals, o: LiveObject): MemoryTotals {
    var c := AllocCell(HeapBucket(o.heapType), o.alloc);
    MemoryTotals(SubGuarded(t.bytes, c, o.size), SubGuarded(t.counts, c, 1),
                 if t.liveBytes >= o.size then t.liveBytes - o.size else t.liveBytes,
                 SubGuarded(t.perType, o.kind, 1))
  }

  function LocCellOf(o: LiveObject): LocCell {
    LocCell(HeapBucket(o.heapType), o.effLoc)
  }

  function AddLoc(t: Table<LocCell>, o: LiveObject): Table<LocCell> {
    if o.alloc.NoAllocation? then t else Add(t, LocCellOf(o), o.size)
  }

  function SubLoc(t: Table<LocCell>, o: LiveObject): Table<LocCell> {
    if o.alloc.NoAllocation? then t else Sub(t, LocCellOf(o), o.size)
  }

  predicate Sized(e: EtwObj) {
    IsDriverType(e.kind) && e.size != 0
  }

  function AddDriver(d: DriverTables, e: EtwObj): DriverTables {
    DriverTables(Add(d.live, e.kind, 1),
                 if Sized(e) then Add(d.sized, e.kind, 1) else d.sized,
                 if Sized(e) then Add(d.bytes, e.kind, e.size) else d.bytes)
  }

  function SubDriver(d: DriverTables, e: EtwObj): DriverTables {
    DriverTables(Sub(d.live, e.kind, 1),
                 if Sized(e) then Sub(d.sized, e.kind, 1) else d.sized,
                 if Sized(e) then Sub(d.bytes, e.kind, e.size) else d.bytes)
  }

  // ---- Locations --------------------------------------------------------------------------------

  // Only cached locations, their totals and the log differ.
  ghost predicate OnlyLocations(s: State, t: State) {
    && t.etw == s.etw && t.ix == s.ix && t.totals == s.totals && t.drivers == s.drivers
    && t.stats == s.stats && t.tb == s.tb && t.watch == s.watch
    && t.live.Keys == s.live.Keys
    && forall i | i in s.live ::
         t.live[i] == s.live[i].(effLoc := t.live[i].effLoc, locReported := t.live[i].locReported)
  }

  function MoveLoc(s: State, id: nat, l: MemLoc): (t: State)
    requires id in s.live
    ensures OnlyLocations(s, t)
  {
    var o := s.live[id];
    var moved := o.(effLoc := l);
    s.(live := s.live[id := moved], locBytes := AddLoc(SubLoc(s.locBytes, o), moved))
  }

  function RecomputeLoc(s: State, id: nat, ts: nat, force: bool): (t: State)
    requires id in s.live
    ensures OnlyLocations(s, t)
  {
    var o := s.live[id];
    var l := EffLoc(s.live, o);
    var t := if l != o.effLoc then MoveLoc(s, id, l) else s;
    if l != o.effLoc || force || (!o.locReported && l != MemLoc.Unknown) then
      t.(live := t.live[id := t.live[id].(locReported := true)],
         log := t.log + [LocationLine(ts, id, l, ViaHeap(s.live, o))])
    else t
  }

  function RecomputeEach(s: State, ids: seq<nat>, ts: nat): (t: State)
    ensures OnlyLocations(s, t)
  {
    if ids == [] then s else
      var n := |ids| - 1;
      var t := RecomputeEach(s, ids[..n], ts);
      if ids[n] in t.live then RecomputeLoc(t, ids[n], ts, false) else t
  }

  function RecomputeChildren(s: State, heap: nat, ts: nat, pick: Order): (t: State)
    ensures OnlyLocations(s, t)
  {
    if heap in s.ix.children then RecomputeEach(s, pick(s.ix.children[heap]), ts) else s
  }

  // An object's own location becomes g; its cached location and those of its placed resources follow.
  function Relocate(s: State, id: nat, g: MemLoc, ts: nat, force: bool, pick: Order): (t: State)
    requires id in s.live
    ensures OnlyLocations(s.(live := s.live[id := s.live[id].(ownLoc := g)]), t)
  {
    var t := RecomputeLoc(s.(live := s.live[id := s.live[id].(ownLoc := g)]), id, ts, force);
    if s.live[id].kind.Heap? then RecomputeChildren(t, id, ts, pick) else t
  }

  // ---- The join ---------------------------------------------------------------------------------

  // The record the object was bound to, if any, lets go of it.
  function Displaced(etw: map<nat, EtwObj>, o: LiveObject, key: nat): map<nat, EtwObj> {
    if o.etwKey != 0 && o.etwKey != key && o.etwKey in etw
    then etw[o.etwKey := etw[o.etwKey].(boundId := 0)] else etw
  }

  function Attach(s: State, key: nat, id: nat, ts: nat): State
    requires key in s.etw && id in s.live
  {
    var o, e := s.live[id], s.etw[key];
    s.(etw := Displaced(s.etw, o, key)[key := e.(boundId := id, pendingSince := 0)],
       live := s.live[id := o.(etwKey := key)],
       stats := s.stats.(binds := s.stats.binds + 1),
       log := s.log + [BindLine(ts, id, key, e.kind, o.ptr, false)])
  }

  function SetDriverSize(s: State, id: nat, size: nat, ts: nat): State
    requires id in s.live
  {
    s.(live := s.live[id := s.live[id].(driverSize := size)],
       log := if size != 0 then s.log + [DriverSizeLine(ts, id, size)] else s.log)
  }

  function Bind(s: State, key: nat, id: nat, ts: nat, pick: Order): (t: State)
    requires key in s.etw && id in s.live
  {
    var o, e := s.live[id], s.etw[key];
    var t := Relocate(Attach(s, key, id, ts), id, e.group, ts, !o.locReported, pick);
    if IsDriverType(e.kind) then SetDriverSize(t, id, e.size, ts) else t
  }

  // The record belonged to an object that is already gone: it never binds to a live one.
  function MatchLate(s: State, key: nat, x: DeadObj, ts: nat): State
    requires key in s.etw
  {
    var e := s.etw[key];
    s.(etw := s.etw[key := e.(orphanTs := if x.destroyed != 0 then x.destroyed else 1, pendingSince := 0)],
       stats := s.stats.(lateMatches := s.stats.lateMatches + 1),
       log := s.log + [BindLine(ts, x.id, key, e.kind, e.address, true)])
  }

  function Wait(s: State, key: nat, nowMs: nat): State
    requires key in s.etw
  {
    s.(etw := s.etw[key := s.etw[key].(pendingSince := WaitStamp(nowMs))],
       ix := s.ix.(pendingQ := s.ix.pendingQ + [key]))
  }

  predicate Settled(e: EtwObj) {
    e.boundId != 0 || e.orphanTs != 0 || e.address == 0 || !Bindable(e.kind)
  }

  // The live object that the record binds to, if any.
  predicate HasLiveMatch(s: State, e: EtwObj) {
    e.address in s.ix.ptrToId && s.ix.ptrToId[e.address] in s.live && CanBind(e, s.live[s.ix.ptrToId[e.address]])
  }

  predicate HasLateMatch(s: State, e: EtwObj) {
    FirstMatch(e, DeadAt(s, e.address)) < |DeadAt(s, e.address)|
  }

  function TryBind(s: State, key: nat, ts: nat, nowMs: nat, pick: Order): State {
    if key !in s.etw || Settled(s.etw[key]) then s else
      var e := s.etw[key];
      if HasLiveMatch(s, e) then Bind(s, key, s.ix.ptrToId[e.address], ts, pick)
      else if HasLateMatch(s, e) then
        MatchLate(s, key, DeadAt(s, e.address)[FirstMatch(e, DeadAt(s, e.address))], ts)
      else if e.pendingSince == 0 && !e.expired then Wait(s, key, nowMs)
      else s
  }

  function ApplyGroup(s: State, key: nat, g: MemLoc, ts: nat, pick: Order): State
    requires key in s.etw
  {
    var e := s.etw[key];
    var t := s.(etw := s.etw[key := e.(group := g)]);
    if e.boundId != 0 && e.boundId in s.live then Relocate(t, e.boundId, g, ts, false, pick) else t
  }

  // A later 0 means "not known": the last non-zero size stays.
  function ApplySize(s: State, key: nat, size: nat, ts: nat): State
    requires key in s.etw
  {
    var e := s.etw[key];
    if size == 0 || size == e.size then s else
      var f := e.(size := size);
      var t := s.(etw := s.etw[key := f], drivers := AddDriver(SubDriver(s.drivers, e), f));
      if e.boundId == 0 || !IsDriverType(e.kind) || e.boundId !in s.live || s.live[e.boundId].driverSize == size
      then t else SetDriverSize(t, e.boundId, size, ts)
  }

  // ---- Pipe events ------------------------------------------------------------------------------

  function NewObject(p: CreatedPayload): LiveObject {
    LiveObject(p.id, p.kind, p.alloc, p.heapType, p.size, p.parentHeapId, p.ptr,
               0, 0, MemLoc.Unknown, MemLoc.Unknown, false, 0)
  }

  // The part of a creation that does not depend on --etw.
  function Admit(s: State, p: CreatedPayload): State {
    s.(live := s.live[p.id := NewObject(p)], totals := AddTotals(s.totals, NewObject(p)))
  }

  function IndexPtr(s: State, id: nat): State
    requires id in s.live
  {
    var o := s.live[id];
    if o.ptr == 0 then s else
      var d := DeadAt(s, o.ptr);
      s.(live := s.live[id := o.(prevDestroy := if d != [] then d[|d| - 1].destroyed else o.prevDestroy)],
         ix := s.ix.(ptrToId := s.ix.ptrToId[o.ptr := id]))
  }

  function IndexParent(s: State, id: nat): State
    requires id in s.live
  {
    var o := s.live[id];
    if !IsPlaced(o) then s else
      var siblings := if o.parent in s.ix.children then s.ix.children[o.parent] else {};
      s.(ix := s.ix.(children := s.ix.children[o.parent := siblings + {id}]))
  }

  function FirstLoc(s: State, id: nat, ts: nat): (t: State)
    requires id in s.live
    ensures OnlyLocations(s, t)
  {
    var o := s.live[id];
    var placed := o.(effLoc := EffLoc(s.live, o));
    var t := s.(live := s.live[id := placed], locBytes := AddLoc(s.locBytes, placed));
    if placed.effLoc != MemLoc.Unknown then RecomputeLoc(t, id, ts, true) else t
  }

  // ETW may have seen the object first.
  function JoinNew(s: State, id: nat, ts: nat, pick: Order): State
    requires id in s.live
  {
    var o := s.live[id];
    if o.ptr != 0 && o.ptr in s.ix.byAddr && s.ix.byAddr[o.ptr] in s.etw && CanBind(s.etw[s.ix.byAddr[o.ptr]], o)
    then Bind(s, s.ix.byAddr[o.ptr], id, ts, pick) else s
  }

  // The new object is indexed and located.
  function Enter(s: State, id: nat, ts: nat): State
    requires id in s.live
  {
    FirstLoc(IndexParent(IndexPtr(s, id), id), id, ts)
  }

  function EtwOnCreated(s: State, id: nat, ts: nat, pick: Order): State
    requires id in s.live
  {
    JoinNew(Enter(s, id, ts), id, ts, pick)
  }

  function Created(s: State, ts: nat, p: CreatedPayload, pick: Order): State {
    EtwOnCreated(Admit(s, p), p.id, ts, pick)
  }

  function Bury(s: State, id: nat, ts: nat): State
    requires id in s.live
  {
    var o := s.live[id];
    if o.ptr == 0 then s else
      var d := DeadAt(s, o.ptr) + [DeadObj(id, o.kind, o.prevDestroy, ts)];
      s.(ix := s.ix.(
        ptrToId := if o.ptr in s.ix.ptrToId && s.ix.ptrToId[o.ptr] == id then s.ix.ptrToId - {o.ptr} else s.ix.ptrToId,
        dead := s.ix.dead[o.ptr := if |d| > DEAD_PER_ADDRESS then d[1..] else d],
        hist := s.ix.hist + [(ts, o.ptr)]))
  }

  function Orphan(s: State, id: nat, ts: nat): State
    requires id in s.live
  {
    var o := s.live[id];
    if o.etwKey == 0 then s else
      s.(etw := if o.etwKey in s.etw && s.etw[o.etwKey].boundId == id
                then s.etw[o.etwKey := s.etw[o.etwKey].(boundId := 0, orphanTs := if ts != 0 then ts else 1)]
                else s.etw,
         live := s.live[id := o.(etwKey := 0)])
  }

  function UnindexParent(s: State, id: nat): State
    requires id in s.live
  {
    var o := s.live[id];
    if !IsPlaced(o) || o.parent !in s.ix.children then s else
      var rest := s.ix.children[o.parent] - {id};
      s.(ix := s.ix.(children := if rest == {} then s.ix.children - {o.parent} else s.ix.children[o.parent := rest]))
  }

  // The heap of a placed resource goes away: the resource falls back to its own location.
  function FallBack(s: State, id: nat, ts: nat): (t: State)
    requires id in s.live
    ensures OnlyLocations(s, t)
  {
    var o := s.live[id];
    if o.effLoc == o.ownLoc then s else
      var t := MoveLoc(s, id, o.ownLoc);
      t.(log := t.log + [LocationLine(ts, id, o.ownLoc, false)])
  }

  function FallBackEach(s: State, ids: seq<nat>, ts: nat): (t: State)
    ensures OnlyLocations(s, t)
  {
    if ids == [] then s else
      var n := |ids| - 1;
      var t := FallBackEach(s, ids[..n], ts);
      if ids[n] in t.live then FallBack(t, ids[n], ts) else t
  }

  function AbandonChildren(s: State, id: nat, ts: nat, pick: Order): State
    requires id in s.live
  {
    if s.live[id].kind.Heap? && id in s.ix.children
    then FallBackEach(s.(ix := s.ix.(children := s.ix.children - {id})), pick(s.ix.children[id]), ts) else s
  }

  // The object leaves every index but its children's.
  function Detach(s: State, id: nat, ts: nat): State
    requires id in s.live
  {
    UnindexParent(Orphan(Bury(s.(locBytes := SubLoc(s.locBytes, s.live[id])), id, ts), id, ts), id)
  }

  function EtwOnDestroyed(s: State, id: nat, ts: nat, pick: Order): State
    requires id in s.live
  {
    AbandonChildren(Detach(s, id, ts), id, ts, pick)
  }

  function Forget(s: State, id: nat): State
    requires id in s.live
  {
    s.(totals := SubTotals(s.totals, s.live[id]), live := s.live - {id})
  }

  function Destroyed(s: State, ts: nat, id: nat, pick: Order): State {
    if id !in s.live then s else
      var t := EtwOnDestroyed(s, id, ts, pick);
      if id in t.live then Forget(t, id) else t
  }

  function Hello(s: State, freq: nat, start: nat): State {
    s.(tb := OnHello(freq, start))
  }

  // ---- ETW events -------------------------------------------------------------------------------

  function EtwCreated(s: State, abs: int, lib: nat, kind: Etw.ObjType, size: nat, group: Etw.Group): State {
    if lib in s.ix.alias then s else
      var e := EtwObj(kind, 0, size, FromGroup(group), ConvTs(s.tb, abs), 0, 0, 0, false, []);
      s.(drivers := AddDriver(s.drivers, e), etw := s.etw[lib := e], ix := s.ix.(alias := s.ix.alias[lib := lib]),
         stats := s.stats.(created := s.stats.created + 1))
  }

  // A live record of the same type already has the address: lib is a rundown re-report of it.
  predicate IsReReport(s: State, key: nat, addr: nat)
    requires key in s.etw
  {
    addr in s.ix.byAddr && s.ix.byAddr[addr] != key && s.ix.byAddr[addr] in s.etw &&
    s.etw[s.ix.byAddr[addr]].kind == s.etw[key].kind
  }

  function CountDuplicate(s: State): State {
    s.(stats := s.stats.(rundownDuplicates := s.stats.rundownDuplicates + 1))
  }

  // The size and group of a re-report e update the record `into`.
  function Absorb(s: State, e: EtwObj, into: nat, pick: Order): (t: State)
    requires into in s.etw
    ensures t.etw.Keys == s.etw.Keys
  {
    var t := if e.size != 0 then ApplySize(s, into, e.size, e.createdTs) else s;
    if e.group != MemLoc.Unknown && e.group != t.etw[into].group
    then ApplyGroup(t, into, e.group, e.createdTs, pick) else t
  }

  // Then its record disappears and its id becomes an alias.
  function Merge(s: State, key: nat, into: nat): State
    requires key in s.etw && into in s.etw && key != into
  {
    var target := s.etw[into];
    s.(drivers := SubDriver(s.drivers, s.etw[key]),
       etw := (s.etw - {key})[into := target.(aliases := target.aliases + [key])],
       ix := s.ix.(alias := s.ix.alias[key := into]))
  }

  function Fold(s: State, key: nat, into: nat, pick: Order): State
    requires key in s.etw && into in s.etw && key != into
  {
    Merge(Absorb(CountDuplicate(s), s.etw[key], into, pick), key, into)
  }

  function SetAddress(s: State, key: nat, addr: nat): State
    requires key in s.etw
  {
    var e := s.etw[key];
    s.(etw := s.etw[key := e.(address := addr)], ix := s.ix.(byAddr := s.ix.byAddr[addr := key]),
       log := s.log + [ObjectLine(e.createdTs, key, e.kind, addr, e.size, e.group)])
  }

  function EtwAddress(s: State, lib: nat, addr: nat, nowMs: nat, pick: Order): State {
    if addr == 0 || !Known(s, lib) || s.etw[s.ix.alias[lib]].address != 0 then s else
      var key := s.ix.alias[lib];
      var ts := s.etw[key].createdTs;
      if IsReReport(s, key, addr) then
        TryBind(Fold(s, key, s.ix.byAddr[addr], pick), s.ix.byAddr[addr], ts, nowMs, pick)
      else
        TryBind(SetAddress(s, key, addr), key, ts, nowMs, pick)
  }

  function EtwDestroyedIndexes(ix: Indexes, key: nat, e: EtwObj): Indexes {
    ix.(alias := ix.alias - (set x | x in e.aliases) - {key},
        byAddr := if e.address != 0 && e.address in ix.byAddr && ix.byAddr[e.address] == key
                  then ix.byAddr - {e.address} else ix.byAddr)
  }

  function Erased(s: State, key: nat): State
    requires key in s.etw
  {
    var e := s.etw[key];
    s.(live := if e.boundId != 0 && e.boundId in s.live && s.live[e.boundId].etwKey == key
               then s.live[e.boundId := s.live[e.boundId].(etwKey := 0)] else s.live,
       ix := EtwDestroyedIndexes(s.ix, key, e),
       drivers := SubDriver(s.drivers, e),
       etw := s.etw - {key})
  }

  function EtwDestroyed(s: State, abs: int, lib: nat): State {
    if !Known(s, lib) then s else
      var key := s.ix.alias[lib];
      var t := if s.etw[key].address != 0
               then s.(log := s.log + [ObjectDestroyedLine(ConvTs(s.tb, abs), key)]) else s;
      Erased(t, key)
  }

  function EtwSize(s: State, abs: int, lib: nat, size: nat): State {
    if Known(s, lib) then ApplySize(s, s.ix.alias[lib], size, ConvTs(s.tb, abs)) else s
  }

  // One look at the child; the one that finds it exiting writes the line that records the cutoff.
  function Poll(s: State, p: Probe): State {
    var w := PollChild(s.watch, p);
    s.(watch := w,
       log := if w.exiting && !s.watch.exiting then s.log + [TargetExitingLine(s.watch.aliveTs, p.nowTs)] else s.log)
  }

  // A stamped event looks at the child first if it is newer than the last sample.
  function Filtered(s: State, ts: nat, p: Probe): State {
    if ts > s.watch.aliveTs then Poll(s, p) else s
  }

  // One element of a batch of group changes.
  function EtwGroup(s: State, abs: int, lib: nat, group: Etw.Group, p: Probe, pick: Order): State {
    var ts := ConvTs(s.tb, abs);
    var t := Filtered(s, ts, p);
    if Ignored(t.watch, ts) then t.(stats := t.stats.(postExitIgnored := t.stats.postExitIgnored + 1)) else
      var u := t.(stats := t.stats.(groupChanges := t.stats.groupChanges + 1));
      if !Known(u, lib) || u.etw[u.ix.alias[lib]].group == FromGroup(group) then u
      else ApplyGroup(u, u.ix.alias[lib], FromGroup(group), ts, pick)
  }

  function CountResidency(t: Stats, op: Etw.ResidencyOp): Stats {
    match op
    case MakeResident => t.(makeResident := t.makeResident + 1)
    case Evict => t.(evict := t.evict + 1)
    case PageIn => t.(pageIns := t.pageIns + 1)
    case PageOut => t.(pageOuts := t.pageOuts + 1)
  }

  function EtwResidency(s: State, abs: int, lib: nat, op: Etw.ResidencyOp, p: Probe): State {
    var ts := ConvTs(s.tb, abs);
    var t := Filtered(s, ts, p);
    if Ignored(t.watch, ts) then t.(stats := t.stats.(postExitIgnored := t.stats.postExitIgnored + 1)) else
      var u := t.(stats := CountResidency(t.stats, op));
      if op.MakeResident? || op.Evict? then u else
        var known := Known(u, lib);
        u.(log := u.log + [ResidencyLine(ts, if known then u.etw[u.ix.alias[lib]].boundId else 0,
                                         if known then u.ix.alias[lib] else lib, op)])
  }

  // Megabytes to bytes, rounded; nothing below zero.
  function FromMb(mb: real): nat {
    var b := mb * 1000000.0;
    if b > 0.0 then (b + 0.5).Floor else 0
  }

  // Samples without a stamp are a replay of the last values and say nothing new.
  function EtwCounter(s: State, abs: int, counter: nat, kind: Etw.CounterKind, mb: real, p: Probe): State {
    if abs <= 0 then s else
      var ts := ConvTs(s.tb, abs);
      var t := Filtered(s, ts, p);
      if Ignored(t.watch, ts) then t else
        t.(stats := t.stats.(counters := t.stats.counters[counter := Counter(kind, FromMb(mb))]))
  }

  // ---- The counters, once per second ------------------------------------------------------------

  function CounterBytes(kind: Etw.CounterKind, c: Counter): nat {
    if c.kind == kind then c.bytes else 0
  }

  // The sum of the counters of each kind that was seen.
  ghost function KindSums(counters: map<nat, Counter>): Table<Etw.CounterKind> {
    map kind | kind in Kinds(counters) :: Sum(counters, CounterBytes, kind)
  }

  function Kinds(counters: map<nat, Counter>): set<Etw.CounterKind> {
    set id | id in counters :: counters[id].kind
  }

  predicate AnyDemoted(sums: Table<Etw.CounterKind>) {
    Etw.DemotedMin in sums || Etw.DemotedLow in sums || Etw.DemotedNormal in sums || Etw.DemotedHigh in sums
    || Etw.DemotedMax in sums
  }

  function DemotedSum(sums: Table<Etw.CounterKind>): nat {
    At(sums, Etw.DemotedMin) + At(sums, Etw.DemotedLow) + At(sums, Etw.DemotedNormal) + At(sums, Etw.DemotedHigh)
    + At(sums, Etw.DemotedMax)
  }

  ghost function ReportCounters(s: State, nowTs: nat): State {
    if s.stats.counters == map[] then s else
      var sums := KindSums(s.stats.counters);
      s.(log := s.log + [CountersLine(nowTs, sums, AnyDemoted(sums), DemotedSum(sums), s.stats.pageIns,
                                      s.stats.pageOuts)])
  }

  function SummaryOf(t: Stats, bound: nat, unbound: nat, unboundByType: Table<Etw.ObjType>): Summary {
    Summary(t.created, t.rundownDuplicates, t.binds, t.lateMatches, bound, unbound, t.pendingExpired, t.groupChanges,
            t.makeResident, t.evict, t.pageIns, t.pageOuts, t.postExitIgnored, unboundByType)
  }

  // ---- The periodic tick ------------------------------------------------------------------------

  predicate TimedOut(e: EtwObj, nowMs: nat) {
    e.boundId == 0 && e.pendingSince != 0 && Waited(nowMs, e.pendingSince) >= PENDING_TIMEOUT_MS
  }

  // The full scan that the early-break queue stands for.
  function Expire(e: EtwObj, nowMs: nat): EtwObj {
    if TimedOut(e, nowMs) then e.(pendingSince := 0, expired := true) else e
  }

  predicate Stale(s: State, key: nat) {
    key !in s.etw || s.etw[key].boundId != 0 || s.etw[key].pendingSince == 0
  }

  function Dequeue(s: State): State
    requires s.ix.pendingQ != []
  {
    s.(ix := s.ix.(pendingQ := s.ix.pendingQ[1..]))
  }

  function ExpireFirst(s: State): State
    requires s.ix.pendingQ != [] && s.ix.pendingQ[0] in s.etw
  {
    var key := s.ix.pendingQ[0];
    s.(etw := s.etw[key := s.etw[key].(pendingSince := 0, expired := true)],
       stats := s.stats.(pendingExpired := s.stats.pendingExpired + 1))
  }

  // The loop over the queue: drop stale keys, expire timed-out ones, stop at the first that still waits.
  function ExpireQueue(s: State, nowMs: nat): State
    decreases |s.ix.pendingQ|
  {
    if s.ix.pendingQ == [] then s
    else if Stale(s, s.ix.pendingQ[0]) then ExpireQueue(Dequeue(s), nowMs)
    else if Waited(nowMs, s.etw[s.ix.pendingQ[0]].pendingSince) < PENDING_TIMEOUT_MS then s
    else ExpireQueue(Dequeue(ExpireFirst(s)), nowMs)
  }

  function DropOld(d: seq<DeadObj>, horizon: nat): seq<DeadObj> {
    if d == [] then d else if d[0].destroyed < horizon then DropOld(d[1..], horizon) else d
  }

  function DropAt(dead: map<nat, seq<DeadObj>>, a: nat, horizon: nat): map<nat, seq<DeadObj>> {
    if a !in dead then dead
    else if DropOld(dead[a], horizon) == [] then dead - {a}
    else dead[a := DropOld(dead[a], horizon)]
  }

  function Prune(s: State, nowTs: nat): State
    decreases |s.ix.hist|
  {
    if s.ix.hist == [] || nowTs <= DESTROY_HISTORY_NS || s.ix.hist[0].0 >= nowTs - DESTROY_HISTORY_NS then s
    else Prune(s.(ix := s.ix.(dead := DropAt(s.ix.dead, s.ix.hist[0].1, nowTs - DESTROY_HISTORY_NS),
                              hist := s.ix.hist[1..])), nowTs)
  }

  function Tick(s: State, nowMs: nat, nowTs: nat): State {
    Prune(ExpireQueue(s, nowMs), nowTs)
  }
}
