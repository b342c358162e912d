// The state of the launcher's Model (src/launcher/Model.h), as a value.

module JoinState {
  import opened Wire
  import opened Tallies
  import opened Timeline
  import opened ChildWatch
  import Etw

  datatype MemLoc = Unknown | Vram | Sys

  datatype LiveObject = LiveObject(
    id: nat, kind: ObjectType, alloc: AllocationKind, heapType: nat, size: nat, parent: nat, ptr: nat,
    prevDestroy: nat,     // when the previous object at ptr died, 0 if none was seen
    etwKey: nat,          // canonical library id of the bound ETW object, 0 if unbound
    ownLoc: MemLoc,       // last group of the bound ETW object
    effLoc: MemLoc,       // cached: ownLoc, or the parent heap's for a placed resource
    locReported: bool,    // a location line was written
    driverSize: nat)

  // One record per distinct library object; rundown re-reports are folded in as aliases.
  datatype EtwObj = EtwObj(
    kind: Etw.ObjType, address: nat, size: nat, group: MemLoc, createdTs: nat,
    boundId: nat,         // the live object it is bound to, 0 if none
    orphanTs: nat,        // not 0: its object died then, and it never binds again
    pendingSince: nat,    // milliseconds; 0 if not waiting
    expired: bool,
    aliases: seq<nat>)

  // A destroyed object, remembered per address so that late records can be attributed to it.
  datatype DeadObj = DeadObj(id: nat, kind: ObjectType, prevDestroy: nat, destroyed: nat)

  // The lines of the sidecar log that the join writes.
  datatype Line =
    | ObjectLine(ts: nat, key: nat, kind: Etw.ObjType, ptr: nat, size: nat, group: MemLoc)
    | BindLine(ts: nat, id: nat, key: nat, kind: Etw.ObjType, ptr: nat, late: bool)
    | LocationLine(ts: nat, id: nat, group: MemLoc, viaHeap: bool)
    | DriverSizeLine(ts: nat, id: nat, bytes: nat)
    | ObjectDestroyedLine(ts: nat, key: nat)
    | ResidencyLine(ts: nat, id: nat, key: nat, op: Etw.ResidencyOp)
    | TargetExitingLine(ts: nat, detected: nat)
    | HelloLine(ts: nat)
    | CountersLine(ts: nat, sums: Table<Etw.CounterKind>, anyDemoted: bool, demoted: nat, pageIns: nat, pageOuts: nat)
    | StatsLine(ts: nat, summary: Summary)

  // A memory counter's latest value.
  datatype Counter = Counter(kind: Etw.CounterKind, bytes: nat)

  datatype AllocCell = AllocCell(bucket: nat, alloc: AllocationKind)
  datatype LocCell = LocCell(bucket: nat, loc: MemLoc)

  datatype MemoryTotals = MemoryTotals(
    bytes: Table<AllocCell>, counts: Table<AllocCell>, liveBytes: nat, perType: Table<ObjectType>)

  datatype Stats = Stats(
    created: nat, rundownDuplicates: nat, binds: nat, lateMatches: nat, pendingExpired: nat,
    groupChanges: nat, postExitIgnored: nat, pageIns: nat, pageOuts: nat, makeResident: nat, evict: nat,
    counters: map<nat, Counter>)

  // What is written at the end of the session.
  datatype Summary = Summary(
    created: nat, rundownDuplicates: nat, binds: nat, lateMatches: nat, boundAlive: nat, unboundAlive: nat,
    pendingExpired: nat, groupChanges: nat, makeResident: nat, evict: nat, pageIns: nat, pageOuts: nat,
    postExitIgnored: nat, unboundByType: Table<Etw.ObjType>)

  // Live ETW objects by library type, how many of them have a driver size, and the sum of those.
  datatype DriverTables = DriverTables(
    live: Table<Etw.ObjType>, sized: Table<Etw.ObjType>, bytes: Table<Etw.ObjType>)

  datatype Indexes = Indexes(
    ptrToId: map<nat, nat>,
    dead: map<nat, seq<DeadObj>>,
    hist: seq<(nat, nat)>,           // (time of death, address), for pruning
    children: map<nat, set<nat>>,    // heap id -> placed ids
    alias: map<nat, nat>,            // any library id -> canonical library id
    byAddr: map<nat, nat>,           // address -> canonical library id
    pendingQ: seq<nat>)

  datatype State = State(
    live: map<nat, LiveObject>,
    etw: map<nat, EtwObj>,
    ix: Indexes,
    locBytes: Table<LocCell>,
    totals: MemoryTotals,
    drivers: DriverTables,
    stats: Stats,
    tb: TimeBase,
    watch: Watch,
    log: seq<Line>)

  const PENDING_TIMEOUT_MS := 10_000

  // When a record that starts to wait at nowMs has been waiting since; 0 means "not waiting".
  function WaitStamp(nowMs: nat): nat {
    if nowMs != 0 then nowMs else 1
  }

  // For how long, in 64 bits: a stamp ahead of the clock wraps around.
  function Waited(nowMs: nat, since: nat): int {
    if since <= nowMs then nowMs - since else U64 + nowMs - since
  }

  const BIND_SLACK_NS := 100_000
  const DESTROY_HISTORY_NS := 10_000_000_000
  const DEAD_PER_ADDRESS := 1024

  const INITIAL := State(
    map[], map[], Indexes(map[], map[], [], map[], map[], map[], []),
    map[], MemoryTotals(map[], map[], 0, map[]), DriverTables(map[], map[], map[]),
    Stats(0, 0, 0, 0, 0, 0, 0, 0, 0, 0, 0, map[]), TimeBase(false, 0, 0, 0), START, [])

  // ---- Classification of types ------------------------------------------------------------------

  predicate IsDriverType(t: Etw.ObjType) {
    t in {Etw.ObjType.PipelineState, Etw.ObjType.StateObject, Etw.ObjType.DescriptorHeap, Etw.ObjType.CommandAllocator}
  }

  predicate Compatible(e: Etw.ObjType, o: ObjectType) {
    match e
    case Resource => o == ObjectType.Resource
    case Heap => o == ObjectType.Heap
    case PipelineState => o == ObjectType.PipelineState
    case CommandAllocator => o == ObjectType.CommandAllocator
    case DescriptorHeap => o == ObjectType.DescriptorHeap
    case _ => false
  }

  predicate Bindable(e: Etw.ObjType) {
    e.Resource? || e.Heap? || e.PipelineState? || e.CommandAllocator? || e.DescriptorHeap?
  }

  function FromGroup(g: Etw.Group): MemLoc {
    match g
    case Local => Vram
    case NonLocal => Sys
    case UnknownGroup => Unknown
  }

  // D3D12_HEAP_TYPE_DEFAULT .. D3D12_HEAP_TYPE_GPU_UPLOAD are 1 .. 5.
  function HeapBucket(heapType: nat): nat {
    if 1 <= heapType <= 5 then heapType else 0
  }

  // ---- Reading the state ------------------------------------------------------------------------

  predicate IsPlaced(o: LiveObject) {
    o.alloc.Placed? && o.parent != 0
  }

  // A placed resource takes its live heap's location while that is known.
  predicate ViaHeap(live: map<nat, LiveObject>, o: LiveObject) {
    IsPlaced(o) && o.parent in live && live[o.parent].ownLoc != Unknown
  }

  function EffLoc(live: map<nat, LiveObject>, o: LiveObject): MemLoc {
    if ViaHeap(live, o) then live[o.parent].ownLoc else o.ownLoc
  }

  predicate CanBind(e: EtwObj, o: LiveObject) {
    e.boundId == 0 && e.orphanTs == 0 && Compatible(e.kind, o.kind) &&
    e.createdTs + BIND_SLACK_NS >= o.prevDestroy
  }

  // Was x the occupant of the address when e was created?
  predicate MatchesDead(e: EtwObj, x: DeadObj) {
    Compatible(e.kind, x.kind) &&
    e.createdTs <= x.destroyed + BIND_SLACK_NS &&
    e.createdTs + BIND_SLACK_NS >= x.prevDestroy
  }

  // The first remembered occupant that e matches, or |d|.
  function FirstMatch(e: EtwObj, d: seq<DeadObj>): (i: nat)
    ensures i <= |d|
    ensures i < |d| ==> MatchesDead(e, d[i])
    ensures forall j | 0 <= j < i :: !MatchesDead(e, d[j])
  {
    if d == [] then 0
    else if MatchesDead(e, d[0]) then 0
    else 1 + FirstMatch(e, d[1..])
  }

  function DeadAt(s: State, a: nat): seq<DeadObj> {
    if a in s.ix.dead then s.ix.dead[a] else []
  }

  predicate Known(s: State, lib: nat) {
    lib in s.ix.alias && s.ix.alias[lib] in s.etw
  }
}
