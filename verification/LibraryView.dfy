// What ETW alone says about the library's objects: a small machine that reads the reports and nothing else. The
// launcher's records are at all times what this machine says, whatever the pipe and the join do.

module LibraryView {
  import opened Wire
  import opened Timeline
  import opened ChildWatch
  import opened JoinState
  import opened JoinSteps
  import opened JoinInvariants
  import opened JoinQueue
  import opened JoinRuns
  import opened JoinTheorems
  import opened TeardownFilter
  import Etw

  // ---- The machine ------------------------------------------------------------------------------

  datatype Clock = NoClock | Clock(freq: nat, start: nat)

  // The stamp of its creation, the clock of that moment, and the latest reports.
  datatype LibObject = LibObject(
    kind: Etw.ObjType, abs: int, clock: Clock, size: nat, loc: MemLoc, address: nat)

  // names: any id -> the id its object goes by; holders: address -> that id.
  datatype View = View(clock: Clock, objects: map<nat, LibObject>, names: map<nat, nat>, holders: map<nat, nat>)

  const NOTHING_SEEN := View(NoClock, map[], map[], map[])

  predicate Names(v: View, lib: nat) {
    lib in v.names && v.names[lib] in v.objects
  }

  // Local memory is video memory, non-local memory is system memory.
  function Told(g: Etw.Group): MemLoc {
    if g.Local? then Vram else if g.NonLocal? then Sys else Unknown
  }

  // The latest size that is known, and the latest location.
  function Resized(v: View, k: nat, size: nat): View
    requires k in v.objects
  {
    if size == 0 then v else v.(objects := v.objects[k := v.objects[k].(size := size)])
  }

  function Relocated(v: View, k: nat, loc: MemLoc): View
    requires k in v.objects
  {
    v.(objects := v.objects[k := v.objects[k].(loc := loc)])
  }

  // An object of the same type holds the address: k is a second report of it, and becomes a name of it.
  predicate Repeats(v: View, k: nat, addr: nat) {
    && k in v.objects && addr in v.holders && v.holders[addr] in v.objects && v.holders[addr] != k
    && v.objects[k].kind == v.objects[v.holders[addr]].kind
  }

  function Repeated(v: View, k: nat, into: nat): View
    requires k in v.objects && into in v.objects && k != into
  {
    var again := v.objects[k];
    var w := Resized(v, into, again.size);
    var u := if again.loc != Unknown then Relocated(w, into, again.loc) else w;
    u.(objects := u.objects - {k}, names := u.names[k := into])
  }

  function Placed(v: View, k: nat, addr: nat): View
    requires k in v.objects
  {
    v.(objects := v.objects[k := v.objects[k].(address := addr)], holders := v.holders[addr := k])
  }

  function Gone(v: View, k: nat): View {
    v.(objects := v.objects - {k},
       names := map l | l in v.names && v.names[l] != k :: v.names[l],
       holders := map a | a in v.holders && v.holders[a] != k :: v.holders[a])
  }

  // One event; dropped: the teardown filter keeps it out.
  function Saw(v: View, e: Event, dropped: bool): View {
    match e
    case HelloEvent(freq, start) => v.(clock := Clock(freq, start))
    case EtwCreatedEvent(abs, lib, kind, size, group) =>
      if lib in v.names then v
      else v.(objects := v.objects[lib := LibObject(kind, abs, v.clock, size, Told(group), 0)],
              names := v.names[lib := lib])
    case EtwAddressEvent(lib, addr, _, _) =>
      if addr == 0 || !Names(v, lib) || v.objects[v.names[lib]].address != 0 then v
      else if Repeats(v, v.names[lib], addr) then Repeated(v, v.names[lib], v.holders[addr])
      else Placed(v, v.names[lib], addr)
    case EtwDestroyedEvent(_, lib) => if Names(v, lib) then Gone(v, v.names[lib]) else v
    case EtwSizeEvent(_, lib, size) => if Names(v, lib) then Resized(v, v.names[lib], size) else v
    case EtwGroupEvent(_, lib, group, _, _) =>
      if Names(v, lib) && !dropped then Relocated(v, v.names[lib], Told(group)) else v
    case _ => v
  }

  ghost predicate KeptOut(s: State, e: Event) {
    IsStamped(e) && Dropped(s, e)
  }

  ghost function Seen(es: seq<Event>): View {
    if es == [] then NOTHING_SEEN else
      Saw(Seen(es[..|es| - 1]), es[|es| - 1], KeptOut(Run(INITIAL, es[..|es| - 1]), es[|es| - 1]))
  }

  // ---- Stamps -----------------------------------------------------------------------------------

  // A counter value in nanoseconds, rounded down.
  function Rounded(q: nat, freq: nat): nat {
    if freq == 0 then 0 else q * 1_000_000_000 / freq
  }

  // ts is the stamp abs on the timeline that starts with the clock: without one, or without a stamp, 0; and if abs is
  // the rounding of a counter value q, then q's distance from the start, rounded, or one nanosecond more.
  ghost predicate OnTimeline(ts: nat, abs: int, clock: Clock) {
    && (clock.NoClock? || abs <= 0 ==> ts == 0)
    && (clock.Clock? && clock.freq > 0 ==>
          forall q: nat | clock.start <= q && abs == Rounded(q, clock.freq) && 0 < abs < 0x8000_0000_0000_0000 ::
            Rounded(q - clock.start, clock.freq) <= ts <= Rounded(q - clock.start, clock.freq) + 1)
  }

  ghost predicate SameClock(tb: TimeBase, clock: Clock) {
    if clock.NoClock? then !tb.helloSeen else tb == OnHello(clock.freq, clock.start)
  }

  lemma ConvertedOnTimeline(tb: TimeBase, clock: Clock, abs: int)
    requires SameClock(tb, clock)
    ensures OnTimeline(ConvTs(tb, abs), abs, clock)
  {
    hide TicksToNs;
    if clock.Clock? && clock.freq > 0 {
      forall q: nat | clock.start <= q && abs == Rounded(q, clock.freq) && 0 < abs < 0x8000_0000_0000_0000
        ensures Rounded(q - clock.start, clock.freq) <= ConvTs(tb, abs) <= Rounded(q - clock.start, clock.freq) + 1
      {
        EtwStampWithinOneNs(clock.freq, clock.start, q);
        LaunchersOwn(clock.freq, clock.start, q);
      }
    }
  }

  // The launcher's own conversion of q does not saturate.
  lemma LaunchersOwn(freq: nat, start: nat, q: nat)
    requires freq > 0 && start <= q && Rounded(q, freq) < 0x8000_0000_0000_0000
    ensures NowTs(OnHello(freq, start), q) == Rounded(q - start, freq)
  {
    TicksToNsExact(q - start, freq);
    DivMono((q - start) * 1_000_000_000, q * 1_000_000_000, freq);
    hide TicksToNs;
  }

  // ---- The records are the view -----------------------------------------------------------------

  ghost predicate Shows(o: LibObject, e: EtwObj) {
    e.kind == o.kind && e.size == o.size && e.group == o.loc && e.address == o.address
    && OnTimeline(e.createdTs, o.abs, o.clock)
  }

  ghost predicate Agrees(s: State, v: View) {
    && SameClock(s.tb, v.clock)
    && s.etw.Keys == v.objects.Keys && s.ix.alias == v.names && s.ix.byAddr == v.holders
    && forall k | k in s.etw :: Shows(v.objects[k], s.etw[k])
  }

  // What the view reads of a record.
  predicate SameFacts(e: EtwObj, f: EtwObj) {
    f.kind == e.kind && f.size == e.size && f.group == e.group && f.address == e.address && f.createdTs == e.createdTs
  }

  ghost predicate SameRecords(s: State, t: State) {
    && t.tb == s.tb && t.ix.alias == s.ix.alias && t.ix.byAddr == s.ix.byAddr && t.etw.Keys == s.etw.Keys
    && forall k | k in s.etw :: SameFacts(s.etw[k], t.etw[k])
  }

  lemma SameRecordsAgree(s: State, t: State, v: View)
    requires Agrees(s, v) && SameRecords(s, t)
    ensures Agrees(t, v)
  {
    hide OnTimeline;
  }

  lemma SameRecordsSelf(s: State)
    ensures SameRecords(s, s)
  {
  }

  lemma SameRecordsTrans(s: State, t: State, u: State)
    requires SameRecords(s, t) && SameRecords(t, u)
    ensures SameRecords(s, u)
  {
  }

  // ---- What leaves the records alone ------------------------------------------------------------

  lemma BindRecords(s: State, key: nat, id: nat, ts: nat, pick: Order)
    requires key in s.etw && id in s.live
    ensures SameRecords(s, Bind(s, key, id, ts, pick))
  {
    hide Relocate;
  }

  lemma TryBindRecords(s: State, key: nat, ts: nat, nowMs: nat, pick: Order)
    ensures SameRecords(s, TryBind(s, key, ts, nowMs, pick))
  {
    hide Bind, CanBind, FirstMatch, DeadAt;
    if key in s.etw && !Settled(s.etw[key]) && HasLiveMatch(s, s.etw[key]) {
      BindRecords(s, key, s.ix.ptrToId[s.etw[key].address], ts, pick);
    }
  }

  lemma CreatedRecords(s: State, ts: nat, p: CreatedPayload, pick: Order)
    ensures SameRecords(s, Created(s, ts, p, pick))
  {
    var t := Enter(Admit(s, p), p.id, ts);
    EnterRecords(s, ts, p);
    hide Enter, Bind, CanBind;
    var o := t.live[p.id];
    if o.ptr != 0 && o.ptr in t.ix.byAddr && t.ix.byAddr[o.ptr] in t.etw && CanBind(t.etw[t.ix.byAddr[o.ptr]], o) {
      BindRecords(t, t.ix.byAddr[o.ptr], p.id, ts, pick);
    }
  }

  lemma EnterRecords(s: State, ts: nat, p: CreatedPayload)
    ensures var t := Enter(Admit(s, p), p.id, ts); p.id in t.live && SameRecords(s, t)
  {
    hide AddTotals, DeadAt, IsPlaced, NewObject, RecomputeLoc, AddLoc, EffLoc;
  }

  lemma DestroyedRecords(s: State, ts: nat, id: nat, pick: Order)
    ensures SameRecords(s, Destroyed(s, ts, id, pick))
  {
    if id in s.live {
      DetachRecords(s, id, ts);
      hide Detach, FallBackEach, SubTotals;
    }
  }

  lemma DetachRecords(s: State, id: nat, ts: nat)
    requires id in s.live
    ensures var t := Detach(s, id, ts); id in t.live && SameRecords(s, t)
  {
    hide SubLoc, DeadAt, IsPlaced;
  }

  lemma DequeueRecords(s: State)
    requires s.ix.pendingQ != []
    ensures SameRecords(s, Dequeue(s))
    ensures s.ix.pendingQ[0] in s.etw ==> SameRecords(s, ExpireFirst(s))
  {
  }

  lemma {:induction false} ExpireRecords(s: State, nowMs: nat)
    ensures SameRecords(s, ExpireQueue(s, nowMs))
    decreases |s.ix.pendingQ|
  {
    if s.ix.pendingQ != [] {
      DequeueRecords(s);
      if Stale(s, s.ix.pendingQ[0]) {
        ExpireRecords(Dequeue(s), nowMs);
        hide SameRecords, Dequeue, Stale;
        SameRecordsTrans(s, Dequeue(s), ExpireQueue(s, nowMs));
      } else if Waited(nowMs, s.etw[s.ix.pendingQ[0]].pendingSince) >= PENDING_TIMEOUT_MS {
        var t := ExpireFirst(s);
        DequeueRecords(t);
        ExpireRecords(Dequeue(t), nowMs);
        hide SameRecords, Dequeue, ExpireFirst, Stale, Waited;
        SameRecordsTrans(s, t, Dequeue(t));
        SameRecordsTrans(s, Dequeue(t), ExpireQueue(s, nowMs));
      }
    }
    SameRecordsSelf(s);
  }

  lemma TickRecords(s: State, nowMs: nat, nowTs: nat)
    ensures SameRecords(s, Tick(s, nowMs, nowTs))
  {
    ExpireRecords(s, nowMs);
    PruneFrame(ExpireQueue(s, nowMs), nowTs);
    hide ExpireQueue, Prune;
  }

  lemma FilteredRecords(s: State, ts: nat, p: Probe)
    ensures var t := Filtered(s, ts, p); SameRecords(s, t) && t.etw == s.etw
  {
    hide PollChild;
  }

  // ---- What changes them ------------------------------------------------------------------------

  lemma SizeChanges(s: State, key: nat, size: nat, ts: nat)
    requires key in s.etw
    ensures var t := ApplySize(s, key, size, ts);
            && t.tb == s.tb && t.ix == s.ix && t.etw.Keys == s.etw.Keys
            && t.etw == s.etw[key := s.etw[key].(size := if size == 0 then s.etw[key].size else size)]
  {
    hide AddDriver, SubDriver;
  }

  lemma GroupChanges(s: State, key: nat, g: MemLoc, ts: nat, pick: Order)
    requires key in s.etw
    ensures var t := ApplyGroup(s, key, g, ts, pick);
            t.tb == s.tb && t.ix == s.ix && t.etw == s.etw[key := s.etw[key].(group := g)]
  {
    hide Relocate;
  }

  lemma AbsorbChanges(s: State, e: EtwObj, into: nat, pick: Order)
    requires into in s.etw
    ensures var t, f := Absorb(s, e, into, pick), s.etw[into];
            && t.tb == s.tb && t.ix == s.ix
            && t.etw == s.etw[into := f.(size := if e.size == 0 then f.size else e.size,
                                         group := if e.group == Unknown then f.group else e.group)]
  {
    hide ApplySize, ApplyGroup;
    SizeChanges(s, into, e.size, e.createdTs);
    var t := if e.size != 0 then ApplySize(s, into, e.size, e.createdTs) else s;
    GroupChanges(t, into, e.group, e.createdTs, pick);
  }

  lemma FoldChanges(s: State, key: nat, into: nat, pick: Order)
    requires key in s.etw && into in s.etw && key != into
    ensures var t, e, f := Fold(s, key, into, pick), s.etw[key], s.etw[into];
            && t.tb == s.tb && t.ix.byAddr == s.ix.byAddr && t.ix.alias == s.ix.alias[key := into]
            && t.etw == (s.etw - {key})[into := f.(size := if e.size == 0 then f.size else e.size,
                                                  group := if e.group == Unknown then f.group else e.group,
                                                  aliases := f.aliases + [key])]
  {
    AbsorbChanges(CountDuplicate(s), s.etw[key], into, pick);
    hide Absorb, SubDriver;
  }

  lemma RepeatedOnce(v: View, key: nat, into: nat)
    requires key in v.objects && into in v.objects && key != into
    ensures var w, o, x := Repeated(v, key, into), v.objects[key], v.objects[into];
            && w.clock == v.clock && w.holders == v.holders && w.names == v.names[key := into]
            && w.objects == (v.objects - {key})[into := x.(size := if o.size == 0 then x.size else o.size,
                                                          loc := if o.loc == Unknown then x.loc else o.loc)]
  {
  }

  lemma FoldAgrees(s: State, v: View, key: nat, into: nat, pick: Order)
    requires Agrees(s, v) && key in s.etw && into in s.etw && key != into
    ensures Agrees(Fold(s, key, into, pick), Repeated(v, key, into))
  {
    hide OnTimeline, Fold, Repeated;
    FoldChanges(s, key, into, pick);
    RepeatedOnce(v, key, into);
    assert Shows(v.objects[key], s.etw[key]) && Shows(v.objects[into], s.etw[into]);
  }

  lemma PlaceAgrees(s: State, v: View, key: nat, addr: nat)
    requires Agrees(s, v) && key in s.etw
    ensures Agrees(SetAddress(s, key, addr), Placed(v, key, addr))
  {
    hide OnTimeline;
    assert Shows(v.objects[key], s.etw[key]);
  }

  lemma AddressAgrees(s: State, v: View, e: Event)
    requires Agrees(s, v) && e.EtwAddressEvent? && AddrIndex(s)
    ensures Agrees(Step(s, e), Saw(v, e, false))
  {
    var lib, addr := e.lib, e.addr;
    hide OnTimeline, TryBind, Fold, Repeated, Placed, SetAddress, OnHello;
    if addr != 0 && Known(s, lib) {
      assert Shows(v.objects[s.ix.alias[lib]], s.etw[s.ix.alias[lib]]);
      if s.etw[s.ix.alias[lib]].address == 0 {
        LandingAgrees(s, v, s.ix.alias[lib], addr, e.nowMs, e.pick);
        hide Agrees, AddrIndex;
      }
    }
  }

  lemma LandingAgrees(s: State, v: View, key: nat, addr: nat, nowMs: nat, pick: Order)
    requires Agrees(s, v) && key in s.etw && AddrIndex(s)
    ensures var ts := s.etw[key].createdTs;
            if IsReReport(s, key, addr)
            then Repeats(v, key, addr) && s.ix.byAddr[addr] == v.holders[addr] &&
                 Agrees(TryBind(Fold(s, key, s.ix.byAddr[addr], pick), s.ix.byAddr[addr], ts, nowMs, pick),
                        Repeated(v, key, v.holders[addr]))
            else !Repeats(v, key, addr) && Agrees(TryBind(SetAddress(s, key, addr), key, ts, nowMs, pick),
                                                  Placed(v, key, addr))
  {
    RepeatsIsReReport(s, v, key, addr);
    hide Agrees, AddrIndex, TryBind, Fold, SetAddress, Repeated, Placed;
    var ts := s.etw[key].createdTs;
    if IsReReport(s, key, addr) {
      var into := s.ix.byAddr[addr];
      var t := Fold(s, key, into, pick);
      FoldAgrees(s, v, key, into, pick);
      TryBindRecords(t, into, ts, nowMs, pick);
      SameRecordsAgree(t, TryBind(t, into, ts, nowMs, pick), Repeated(v, key, into));
    } else {
      var t := SetAddress(s, key, addr);
      PlaceAgrees(s, v, key, addr);
      TryBindRecords(t, key, ts, nowMs, pick);
      SameRecordsAgree(t, TryBind(t, key, ts, nowMs, pick), Placed(v, key, addr));
    }
  }

  lemma RepeatsIsReReport(s: State, v: View, key: nat, addr: nat)
    requires Agrees(s, v) && key in s.etw && AddrIndex(s)
    ensures key in v.objects && v.holders == s.ix.byAddr
    ensures Repeats(v, key, addr) <==> IsReReport(s, key, addr)
  {
    hide OnTimeline, OnHello;
    assert Shows(v.objects[key], s.etw[key]);
    if addr in s.ix.byAddr {
      assert Shows(v.objects[s.ix.byAddr[addr]], s.etw[s.ix.byAddr[addr]]);
    }
  }

  lemma EtwCreatedAgrees(s: State, v: View, e: Event)
    requires Agrees(s, v) && e.EtwCreatedEvent?
    ensures Agrees(Step(s, e), Saw(v, e, false))
  {
    hide OnTimeline, ConvTs, AddDriver;
    ConvertedOnTimeline(s.tb, v.clock, e.abs);
  }

  lemma EtwDestroyedAgrees(s: State, env: Issued, v: View, e: Event)
    requires Agrees(s, v) && e.EtwDestroyedEvent? && Forest(s, env)
    ensures Agrees(Step(s, e), Saw(v, e, false))
  {
    hide OnTimeline, ConvTs, SubDriver, Forest, Shows;
    if Known(s, e.lib) {
      ErasedLeaves(s, env, e, s.ix.alias[e.lib]);
      hide EtwDestroyed;
    }
  }

  lemma ErasedLeaves(s: State, env: Issued, e: Event, key: nat)
    requires e.EtwDestroyedEvent? && Forest(s, env) && Known(s, e.lib) && key == s.ix.alias[e.lib]
    ensures var t := Step(s, e);
            && t.tb == s.tb && t.etw == s.etw - {key}
            && t.ix.alias == (map l | l in s.ix.alias && s.ix.alias[l] != key :: s.ix.alias[l])
            && t.ix.byAddr == (map a | a in s.ix.byAddr && s.ix.byAddr[a] != key :: s.ix.byAddr[a])
  {
    hide ConvTs, SubDriver, AliasesOnce, AddresslessBlank;
    forall l ensures l in s.ix.alias && s.ix.alias[l] == key <==> l == key || l in s.etw[key].aliases {
      assert LeadsTo(s, l, key) <==> InClass(s, l, key);
    }
  }

  lemma SizeAgrees(s: State, v: View, e: Event)
    requires Agrees(s, v) && e.EtwSizeEvent?
    ensures Agrees(Step(s, e), Saw(v, e, false))
  {
    hide OnTimeline, ApplySize, ConvTs;
    if Known(s, e.lib) {
      var key := s.ix.alias[e.lib];
      SizeChanges(s, key, e.size, ConvTs(s.tb, e.abs));
      assert Shows(v.objects[key], s.etw[key]);
    }
  }

  lemma GroupAgrees(s: State, v: View, e: Event)
    requires Agrees(s, v) && e.EtwGroupEvent?
    ensures Agrees(Step(s, e), Saw(v, e, KeptOut(s, e)))
  {
    hide Agrees, Step, Dropped, Relocated;
    if KeptOut(s, e) {
      DroppedChangesNothing(s, e);
      SameRecordsAgree(s, Step(s, e), v);
    } else {
      AppliedAgrees(s, v, e);
    }
  }

  lemma AppliedAgrees(s: State, v: View, e: Event)
    requires Agrees(s, v) && e.EtwGroupEvent? && !KeptOut(s, e)
    ensures Agrees(Step(s, e), Saw(v, e, false))
  {
    AppliedStep(s, e);
    hide OnTimeline, ApplyGroup, ConvTs, Filtered, KeptOut, Relocated, Step, OnHello;
    var u := GroupCounted(s, e);
    SameRecordsAgree(s, u, v);
    if Known(u, e.lib) {
      RegroupAgrees(u, v, u.ix.alias[e.lib], e.group, ConvTs(s.tb, e.abs), e.pick);
    }
  }

  function GroupCounted(s: State, e: Event): State
    requires e.EtwGroupEvent?
  {
    var t := Filtered(s, ConvTs(s.tb, e.abs), e.probe);
    t.(stats := t.stats.(groupChanges := t.stats.groupChanges + 1))
  }

  lemma AppliedStep(s: State, e: Event)
    requires e.EtwGroupEvent? && !KeptOut(s, e)
    ensures var u, ts := GroupCounted(s, e), ConvTs(s.tb, e.abs);
            && SameRecords(s, u)
            && Step(s, e) == if Known(u, e.lib) && u.etw[u.ix.alias[e.lib]].group != FromGroup(e.group)
                             then ApplyGroup(u, u.ix.alias[e.lib], FromGroup(e.group), ts, e.pick) else u
  {
    var ts := ConvTs(s.tb, e.abs);
    FilteredWatch(s, ts, e.probe);
    hide ApplyGroup, ConvTs, Filtered, Ignored, PollChild, FromGroup;
  }

  lemma RegroupAgrees(s: State, v: View, key: nat, g: Etw.Group, ts: nat, pick: Order)
    requires Agrees(s, v) && key in s.etw
    ensures var t := if s.etw[key].group == FromGroup(g) then s else ApplyGroup(s, key, FromGroup(g), ts, pick);
            Agrees(t, Relocated(v, key, Told(g)))
  {
    hide OnTimeline, ApplyGroup;
    GroupChanges(s, key, FromGroup(g), ts, pick);
    assert Shows(v.objects[key], s.etw[key]);
  }

  lemma QuietRecords(s: State, e: Event)
    requires !e.HelloEvent? && !e.EtwCreatedEvent? && !e.EtwAddressEvent? && !e.EtwDestroyedEvent?
    requires !e.EtwSizeEvent? && !e.EtwGroupEvent?
    ensures SameRecords(s, Step(s, e))
  {
    hide Created, Destroyed, Tick, PollChild, Filtered, Ignored, ConvTs, KindSums, FromMb, CountResidency;
    match e
    case CreatedEvent(ts, p, pick) => CreatedRecords(s, ts, p, pick);
    case DestroyedEvent(ts, id, pick) => DestroyedRecords(s, ts, id, pick);
    case TickEvent(nowMs, nowTs) => TickRecords(s, nowMs, nowTs);
    case EtwResidencyEvent(abs, lib, op, p) => FilteredRecords(s, ConvTs(s.tb, abs), p);
    case EtwCounterEvent(abs, counter, kind, mb, p) => FilteredRecords(s, ConvTs(s.tb, abs), p);
    case _ =>
  }

  lemma HelloAgrees(s: State, v: View, e: Event)
    requires Agrees(s, v) && e.HelloEvent?
    ensures Agrees(Step(s, e), Saw(v, e, false))
  {
    hide OnTimeline, OnHello;
  }

  lemma StepAgrees(s: State, env: Issued, v: View, e: Event)
    requires Inv(s, env) && Agrees(s, v)
    ensures Agrees(Step(s, e), Saw(v, e, KeptOut(s, e)))
  {
    InvForest(s, env);
    hide Inv, Agrees, Step, Forest;
    if e.HelloEvent? {
      HelloAgrees(s, v, e);
    } else if e.EtwCreatedEvent? {
      EtwCreatedAgrees(s, v, e);
    } else if e.EtwAddressEvent? {
      AddressAgrees(s, v, e);
    } else if e.EtwDestroyedEvent? {
      EtwDestroyedAgrees(s, env, v, e);
    } else if e.EtwSizeEvent? {
      SizeAgrees(s, v, e);
    } else if e.EtwGroupEvent? {
      GroupAgrees(s, v, e);
    } else {
      QuietRecords(s, e);
      SameRecordsAgree(s, Step(s, e), v);
    }
  }

  lemma InvForest(s: State, env: Issued)
    requires Inv(s, env)
    ensures Forest(s, env) && AddrIndex(s)
  {
    hide LocInv, DriverSizes, Objects, Binding, Queue, Maximal;
  }

  lemma NothingAgrees()
    ensures Agrees(INITIAL, NOTHING_SEEN)
  {
  }

  // In every reachable state the records, their names and the addresses are what the reports say.
  lemma {:induction false} RecordsAreReports(es: seq<Event>, s: State, env: Issued)
    requires Reached(es, s, env)
    ensures Agrees(s, Seen(es))
  {
    hide Inv, Agrees, Step, Allowed, JoinRuns.Next, KeptOut, Saw;
    if es != [] {
      var before := es[..|es| - 1];
      var s0, env0 := Run(INITIAL, before), Issuing(INITIAL, NOTHING_ISSUED, before);
      RecordsAreReports(before, s0, env0);
      ReachedInv(before, s0, env0);
      StepAgrees(s0, env0, Seen(before), es[|es| - 1]);
    } else {
      NothingAgrees();
    }
  }

  // ---- Where a record comes from ----------------------------------------------------------------

  // The n-th event created the object under the id k, when the clock was the one the view has for it.
  ghost predicate CreatesAt(es: seq<Event>, n: nat, k: nat, o: LibObject) {
    && n < |es| && es[n].EtwCreatedEvent? && es[n].lib == k && es[n].kind == o.kind && es[n].abs == o.abs
    && Seen(es[..n]).clock == o.clock
  }

  lemma SawObject(v: View, e: Event, dropped: bool, k: nat)
    requires k in Saw(v, e, dropped).objects
    ensures var o := Saw(v, e, dropped).objects[k];
            || (e.EtwCreatedEvent? && e.lib == k && e.kind == o.kind && e.abs == o.abs && o.clock == v.clock)
            || (k in v.objects && v.objects[k].kind == o.kind && v.objects[k].abs == o.abs
                && v.objects[k].clock == o.clock)
  {
  }

  // Every object of the view, and so every record, was created by an event of the run.
  lemma {:induction false} ObjectWasCreated(es: seq<Event>, k: nat)
    requires k in Seen(es).objects
    ensures exists n: nat :: CreatesAt(es, n, k, Seen(es).objects[k])
  {
    var before, e := es[..|es| - 1], es[|es| - 1];
    var v, dropped := Seen(before), KeptOut(Run(INITIAL, before), e);
    var o := Seen(es).objects[k];
    SawObject(v, e, dropped, k);
    hide Saw, KeptOut, Run;
    if e.EtwCreatedEvent? && e.lib == k && e.kind == o.kind && e.abs == o.abs && o.clock == v.clock {
      assert CreatesAt(es, |es| - 1, k, o);
    } else {
      ObjectWasCreated(before, k);
      var n: nat :| CreatesAt(before, n, k, v.objects[k]);
      assert es[..n] == before[..n];
      assert CreatesAt(es, n, k, o);
    }
  }

  // The clock is the one of the latest Hello.
  lemma {:induction false} ClockIsLatestHello(es: seq<Event>, n: nat)
    requires n < |es| && es[n].HelloEvent? && forall j | n < j < |es| :: !es[j].HelloEvent?
    ensures Seen(es).clock == Clock(es[n].freq, es[n].start)
  {
    var before, e := es[..|es| - 1], es[|es| - 1];
    hide KeptOut, Run;
    if n < |es| - 1 {
      ClockIsLatestHello(before, n);
      SawClock(Seen(before), e, KeptOut(Run(INITIAL, before), e));
    }
  }

  lemma SawClock(v: View, e: Event, dropped: bool)
    requires !e.HelloEvent?
    ensures Saw(v, e, dropped).clock == v.clock
  {
  }
}
