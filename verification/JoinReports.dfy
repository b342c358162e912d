// The statistics and the report lines of the sidecar, against a count of the events themselves.

module JoinReports {
  import opened Wire
  import opened Timeline
  import opened ChildWatch
  import opened JoinState
  import opened JoinSteps
  import opened JoinInvariants
  import opened JoinQueue
  import opened JoinRuns
  import opened JoinTheorems
  import opened TeardownFilter
  import opened LibraryView
  import Etw

  // ---- Counting the events ----------------------------------------------------------------------

  // The latest value of a memory counter, in megabytes.
  datatype Sample = Sample(kind: Etw.CounterKind, mb: real)

  datatype Count = Count(
    objects: nat, repeats: nat, groupChanges: nat, ignored: nat,
    makeResident: nat, evict: nat, pageIns: nat, pageOuts: nat, samples: map<nat, Sample>)

  const NOTHING_COUNTED := Count(0, 0, 0, 0, 0, 0, 0, 0, map[])

  function OneMore(n: Count, op: Etw.ResidencyOp): Count {
    if op.MakeResident? then n.(makeResident := n.makeResident + 1)
    else if op.Evict? then n.(evict := n.evict + 1)
    else if op.PageIn? then n.(pageIns := n.pageIns + 1)
    else n.(pageOuts := n.pageOuts + 1)
  }

  // One event on top of the others; v is what was seen of the library's objects, dropped: the filter keeps it out.
  function Counted(n: Count, v: View, e: Event, dropped: bool): Count {
    match e
    case EtwCreatedEvent(_, lib, _, _, _) => if lib in v.names then n else n.(objects := n.objects + 1)
    case EtwAddressEvent(lib, addr, _, _) =>
      if addr != 0 && Names(v, lib) && v.objects[v.names[lib]].address == 0 && Repeats(v, v.names[lib], addr)
      then n.(repeats := n.repeats + 1) else n
    case EtwGroupEvent(_, _, _, _, _) =>
      if dropped then n.(ignored := n.ignored + 1) else n.(groupChanges := n.groupChanges + 1)
    case EtwResidencyEvent(_, _, op, _) =>
      if dropped then n.(ignored := n.ignored + 1) else OneMore(n, op)
    case EtwCounterEvent(abs, counter, kind, mb, _) =>
      if abs > 0 && !dropped then n.(samples := n.samples[counter := Sample(kind, mb)]) else n
    case _ => n
  }

  ghost function CountOf(es: seq<Event>): Count {
    if es == [] then NOTHING_COUNTED else
      var before, e := es[..|es| - 1], es[|es| - 1];
      Counted(CountOf(before), Seen(before), e, KeptOut(Run(INITIAL, before), e))
  }

  // Whole bytes, rounded to the nearest; nothing below zero.
  predicate InBytes(bytes: nat, mb: real) {
    if mb <= 0.0 then bytes == 0
    else bytes as real - 0.5 <= mb * 1000000.0 < bytes as real + 0.5
  }

  ghost predicate CountersOf(counters: map<nat, Counter>, samples: map<nat, Sample>) {
    && counters.Keys == samples.Keys
    && forall i | i in counters :: counters[i].kind == samples[i].kind && InBytes(counters[i].bytes, samples[i].mb)
  }

  ghost predicate StatsOf(t: Stats, n: Count) {
    && t.created == n.objects && t.rundownDuplicates == n.repeats && t.groupChanges == n.groupChanges
    && t.postExitIgnored == n.ignored && t.makeResident == n.makeResident && t.evict == n.evict
    && t.pageIns == n.pageIns && t.pageOuts == n.pageOuts && CountersOf(t.counters, n.samples)
  }

  // ---- What each step counts --------------------------------------------------------------------

  // Only the outcomes of the join are counted.
  ghost predicate SameCounts(t: Stats, u: Stats) {
    u == t.(binds := u.binds, lateMatches := u.lateMatches, pendingExpired := u.pendingExpired)
  }

  lemma FromMbRounds(mb: real)
    ensures InBytes(FromMb(mb), mb)
  {
  }

  lemma BindCounts(s: State, key: nat, id: nat, ts: nat, pick: Order)
    requires key in s.etw && id in s.live
    ensures SameCounts(s.stats, Bind(s, key, id, ts, pick).stats)
  {
    hide Relocate, Displaced;
  }

  lemma TryBindCounts(s: State, key: nat, ts: nat, nowMs: nat, pick: Order)
    ensures SameCounts(s.stats, TryBind(s, key, ts, nowMs, pick).stats)
  {
    hide Bind, CanBind, FirstMatch, DeadAt;
    if key in s.etw && !Settled(s.etw[key]) && HasLiveMatch(s, s.etw[key]) {
      BindCounts(s, key, s.ix.ptrToId[s.etw[key].address], ts, pick);
    }
  }

  lemma CreatedCounts(s: State, ts: nat, p: CreatedPayload, pick: Order)
    ensures SameCounts(s.stats, Created(s, ts, p, pick).stats)
  {
    EnterCounts(s, ts, p);
    var t := Enter(Admit(s, p), p.id, ts);
    hide Enter, Bind, CanBind;
    var o := t.live[p.id];
    if o.ptr != 0 && o.ptr in t.ix.byAddr && t.ix.byAddr[o.ptr] in t.etw && CanBind(t.etw[t.ix.byAddr[o.ptr]], o) {
      BindCounts(t, t.ix.byAddr[o.ptr], p.id, ts, pick);
    }
  }

  lemma EnterCounts(s: State, ts: nat, p: CreatedPayload)
    ensures var t := Enter(Admit(s, p), p.id, ts); p.id in t.live && t.stats == s.stats
  {
    hide RecomputeLoc, AddTotals, DeadAt, IsPlaced, NewObject, AddLoc, EffLoc;
  }

  lemma DestroyedCounts(s: State, ts: nat, id: nat, pick: Order)
    ensures SameCounts(s.stats, Destroyed(s, ts, id, pick).stats)
  {
    if id in s.live {
      DetachCounts(s, id, ts);
      hide Detach, FallBackEach, SubTotals;
    }
  }

  lemma DetachCounts(s: State, id: nat, ts: nat)
    requires id in s.live
    ensures id in Detach(s, id, ts).live && Detach(s, id, ts).stats == s.stats
  {
    hide SubLoc, DeadAt, IsPlaced;
  }

  lemma AbsorbCounts(s: State, e: EtwObj, into: nat, pick: Order)
    requires into in s.etw
    ensures Absorb(s, e, into, pick).stats == s.stats
  {
    hide Relocate, AddDriver, SubDriver;
  }

  lemma AddressCounts(s: State, v: View, e: Event, n: Count)
    requires e.EtwAddressEvent? && Agrees(s, v) && AddrIndex(s) && StatsOf(s.stats, n)
    ensures StatsOf(Step(s, e).stats, Counted(n, v, e, false))
  {
    hide TryBind, Absorb, SubDriver, OnTimeline, OnHello, CountersOf, Repeats, SetAddress;
    if e.addr != 0 && Known(s, e.lib) {
      var key := s.ix.alias[e.lib];
      assert Shows(v.objects[key], s.etw[key]);
      if s.etw[key].address == 0 {
        RepeatsIsReReport(s, v, key, e.addr);
        LandingCounts(s, key, e.addr, e.nowMs, e.pick);
        hide Agrees, AddrIndex, Fold, IsReReport;
      }
    }
  }

  lemma LandingCounts(s: State, key: nat, addr: nat, nowMs: nat, pick: Order)
    requires key in s.etw
    ensures var ts := s.etw[key].createdTs;
            if IsReReport(s, key, addr)
            then SameCounts(s.stats.(rundownDuplicates := s.stats.rundownDuplicates + 1),
                            TryBind(Fold(s, key, s.ix.byAddr[addr], pick), s.ix.byAddr[addr], ts, nowMs, pick).stats)
            else SameCounts(s.stats, TryBind(SetAddress(s, key, addr), key, ts, nowMs, pick).stats)
  {
    var ts := s.etw[key].createdTs;
    hide TryBind, Absorb, SubDriver;
    if IsReReport(s, key, addr) {
      AbsorbCounts(CountDuplicate(s), s.etw[key], s.ix.byAddr[addr], pick);
      TryBindCounts(Fold(s, key, s.ix.byAddr[addr], pick), s.ix.byAddr[addr], ts, nowMs, pick);
    } else {
      TryBindCounts(SetAddress(s, key, addr), key, ts, nowMs, pick);
    }
  }

  lemma {:induction false} ExpireCounts(s: State, nowMs: nat)
    ensures SameCounts(s.stats, ExpireQueue(s, nowMs).stats)
    decreases |s.ix.pendingQ|
  {
    hide Waited;
    if s.ix.pendingQ != [] {
      if Stale(s, s.ix.pendingQ[0]) {
        ExpireCounts(Dequeue(s), nowMs);
      } else if Waited(nowMs, s.etw[s.ix.pendingQ[0]].pendingSince) >= PENDING_TIMEOUT_MS {
        ExpireCounts(Dequeue(ExpireFirst(s)), nowMs);
      }
    }
  }

  lemma FilteredStats(s: State, ts: nat, p: Probe)
    ensures Filtered(s, ts, p).stats == s.stats
  {
    hide PollChild;
  }

  lemma GroupCounts(s: State, e: Event, n: Count, v: View)
    requires e.EtwGroupEvent? && StatsOf(s.stats, n)
    ensures StatsOf(Step(s, e).stats, Counted(n, v, e, KeptOut(s, e)))
  {
    FilteredWatch(s, ConvTs(s.tb, e.abs), e.probe);
    hide Relocate, PollChild, ConvTs, Filtered, Ignored, FromGroup, CountersOf;
  }

  lemma ResidencyCounts(s: State, e: Event, n: Count, v: View)
    requires e.EtwResidencyEvent? && StatsOf(s.stats, n)
    ensures StatsOf(Step(s, e).stats, Counted(n, v, e, KeptOut(s, e)))
  {
    hide Step, KeptOut, StatsOf, OneMore, CountResidency;
    ResidencyStats(s, e);
    IgnoredMore(s.stats, n);
    OperationMore(s.stats, n, e.op);
  }

  lemma IgnoredMore(t: Stats, n: Count)
    requires StatsOf(t, n)
    ensures StatsOf(t.(postExitIgnored := t.postExitIgnored + 1), n.(ignored := n.ignored + 1))
  {
  }

  lemma OperationMore(t: Stats, n: Count, op: Etw.ResidencyOp)
    requires StatsOf(t, n)
    ensures StatsOf(CountResidency(t, op), OneMore(n, op))
  {
  }

  lemma ResidencyStats(s: State, e: Event)
    requires e.EtwResidencyEvent?
    ensures Step(s, e).stats == if KeptOut(s, e) then s.stats.(postExitIgnored := s.stats.postExitIgnored + 1)
                                else CountResidency(s.stats, e.op)
  {
    FilteredWatch(s, ConvTs(s.tb, e.abs), e.probe);
    hide PollChild, ConvTs, Filtered, Ignored, CountResidency;
    var t := Filtered(s, ConvTs(s.tb, e.abs), e.probe);
    assert t.stats == s.stats;
  }

  lemma CounterCounts(s: State, e: Event, n: Count, v: View)
    requires e.EtwCounterEvent? && StatsOf(s.stats, n)
    ensures StatsOf(Step(s, e).stats, Counted(n, v, e, KeptOut(s, e)))
  {
    if e.abs > 0 {
      FilteredWatch(s, ConvTs(s.tb, e.abs), e.probe);
      FromMbRounds(e.mb);
    }
    hide PollChild, ConvTs, Filtered, Ignored, FromMb, InBytes;
  }

  lemma QuietCounts(s: State, e: Event)
    requires !e.EtwCreatedEvent? && !e.EtwAddressEvent? && !IsStamped(e)
    ensures SameCounts(s.stats, Step(s, e).stats)
  {
    hide Created, Destroyed, Relocate, ConvTs, PollChild, AddDriver, SubDriver, EtwDestroyedIndexes, ExpireQueue, Prune,
         KindSums, FromMb, ApplySize, Ignored;
    match e
    case CreatedEvent(ts, p, pick) => CreatedCounts(s, ts, p, pick);
    case DestroyedEvent(ts, id, pick) => DestroyedCounts(s, ts, id, pick);
    case EtwSizeEvent(abs, lib, size) => SizeCounts(s, e);
    case TickEvent(nowMs, nowTs) =>
      ExpireCounts(s, nowMs);
      PruneFrame(ExpireQueue(s, nowMs), nowTs);
    case _ =>
  }

  lemma SizeCounts(s: State, e: Event)
    requires e.EtwSizeEvent?
    ensures Step(s, e).stats == s.stats
  {
    hide AddDriver, SubDriver, ConvTs;
  }

  lemma EtwCreatedCounts(s: State, v: View, e: Event, n: Count)
    requires e.EtwCreatedEvent? && Agrees(s, v) && StatsOf(s.stats, n)
    ensures StatsOf(Step(s, e).stats, Counted(n, v, e, false))
  {
    hide OnTimeline, OnHello, AddDriver, ConvTs, CountersOf;
  }

  lemma StepCounts(s: State, env: Issued, v: View, e: Event, n: Count)
    requires Inv(s, env) && Agrees(s, v) && StatsOf(s.stats, n)
    ensures StatsOf(Step(s, e).stats, Counted(n, v, e, KeptOut(s, e)))
  {
    hide Inv, Agrees, Step, StatsOf, SameCounts, Dropped;
    if e.EtwCreatedEvent? {
      EtwCreatedCounts(s, v, e, n);
    } else if e.EtwAddressEvent? {
      InvForest(s, env);
      AddressCounts(s, v, e, n);
    } else if e.EtwGroupEvent? {
      GroupCounts(s, e, n, v);
    } else if e.EtwResidencyEvent? {
      ResidencyCounts(s, e, n, v);
    } else if e.EtwCounterEvent? && e.abs > 0 {
      CounterCounts(s, e, n, v);
    } else {
      QuietCounts(s, e);
      SameCountsKept(s.stats, Step(s, e).stats, n);
    }
  }

  lemma SameCountsKept(t: Stats, u: Stats, n: Count)
    requires StatsOf(t, n) && SameCounts(t, u)
    ensures StatsOf(u, n)
  {
  }

  // In every reachable state the statistics are the counts of the events.
  lemma {:induction false} StatisticsAreCounts(es: seq<Event>, s: State, env: Issued)
    requires Reached(es, s, env)
    ensures StatsOf(s.stats, CountOf(es))
  {
    hide Inv, Agrees, Step, Allowed, JoinRuns.Next, KeptOut, Saw, Counted, StatsOf;
    if es != [] {
      var before := es[..|es| - 1];
      var s0, env0 := Run(INITIAL, before), Issuing(INITIAL, NOTHING_ISSUED, before);
      StatisticsAreCounts(before, s0, env0);
      RecordsAreReports(before, s0, env0);
      ReachedInv(before, s0, env0);
      StepCounts(s0, env0, Seen(before), es[|es| - 1], CountOf(before));
    } else {
      NothingCounted();
    }
  }

  lemma NothingCounted()
    ensures StatsOf(INITIAL.stats, NOTHING_COUNTED)
  {
  }
}
