// The report lines of the sidecar, written from the events alone, and the driver sizes that a reader gets from the log.

module SidecarReports {
  import opened Tallies
  import opened Timeline
  import opened ChildWatch
  import opened JoinState
  import opened JoinSteps
  import opened JoinInvariants
  import opened JoinQueue
  import opened JoinRuns
  import opened JoinTheorems
  import opened TeardownFilter
  import opened SidecarLines
  import opened LibraryView
  import opened ObjectView
  import opened JoinReports
  import Etw

  // ---- The demoted counters ---------------------------------------------------------------------

  predicate IsDemoted(kind: Etw.CounterKind) {
    kind.DemotedMin? || kind.DemotedLow? || kind.DemotedNormal? || kind.DemotedHigh? || kind.DemotedMax?
  }

  function DemotedBytes(u: (), c: Counter): nat {
    if IsDemoted(c.kind) then c.bytes else 0
  }

  lemma OneOfFive(c: Counter)
    ensures DemotedBytes((), c)
            == CounterBytes(Etw.DemotedMin, c) + CounterBytes(Etw.DemotedLow, c) + CounterBytes(Etw.DemotedNormal, c)
             + CounterBytes(Etw.DemotedHigh, c) + CounterBytes(Etw.DemotedMax, c)
  {
  }

  lemma {:induction false} FiveKinds(counters: map<nat, Counter>)
    ensures Sum(counters, DemotedBytes, ())
            == Sum(counters, CounterBytes, Etw.DemotedMin) + Sum(counters, CounterBytes, Etw.DemotedLow)
             + Sum(counters, CounterBytes, Etw.DemotedNormal) + Sum(counters, CounterBytes, Etw.DemotedHigh)
             + Sum(counters, CounterBytes, Etw.DemotedMax)
    decreases |counters|
  {
    hide CounterBytes, DemotedBytes;
    if |counters| > 0 {
      var i := Pick(counters);
      assert counters.Keys == (counters - {i}).Keys + {i};
      OneOfFive(counters[i]);
      FiveKinds(counters - {i});
    }
  }

  lemma {:induction false} UnseenIsZero(counters: map<nat, Counter>, kind: Etw.CounterKind)
    requires kind !in Kinds(counters)
    ensures Sum(counters, CounterBytes, kind) == 0
    decreases |counters|
  {
    if |counters| > 0 {
      var i := Pick(counters);
      assert counters.Keys == (counters - {i}).Keys + {i};
      assert counters[i].kind in Kinds(counters);
      forall k | k in Kinds(counters - {i}) ensures k in Kinds(counters) {}
      UnseenIsZero(counters - {i}, kind);
    }
  }

  lemma KindSumAt(counters: map<nat, Counter>, kind: Etw.CounterKind)
    ensures At(KindSums(counters), kind) == Sum(counters, CounterBytes, kind)
  {
    hide Sum;
    if kind !in Kinds(counters) {
      UnseenIsZero(counters, kind);
    }
  }

  lemma DemotedAreSeen(counters: map<nat, Counter>)
    ensures AnyDemoted(KindSums(counters)) <==> exists i | i in counters :: IsDemoted(counters[i].kind)
  {
    hide Sum;
    if AnyDemoted(KindSums(counters)) {
      var kind :| kind in Kinds(counters) && IsDemoted(kind);
      var i :| i in counters && counters[i].kind == kind;
    }
  }

  // The demoted total of the counters line is the sum over the counters of the five kinds, and shown if there is one.
  lemma DemotedAreSummed(counters: map<nat, Counter>)
    ensures DemotedSum(KindSums(counters)) == Sum(counters, DemotedBytes, ())
    ensures AnyDemoted(KindSums(counters)) <==> exists i | i in counters :: IsDemoted(counters[i].kind)
  {
    FiveKinds(counters);
    DemotedAreSeen(counters);
    hide Sum, KindSums, AnyDemoted, IsDemoted, CounterBytes, DemotedBytes;
    KindSumAt(counters, Etw.DemotedMin);
    KindSumAt(counters, Etw.DemotedLow);
    KindSumAt(counters, Etw.DemotedNormal);
    KindSumAt(counters, Etw.DemotedHigh);
    KindSumAt(counters, Etw.DemotedMax);
  }

  function OfKind(kind: Etw.CounterKind, c: Counter): nat {
    if c.kind == kind then c.bytes else 0
  }

  // What the line shows for each kind that there is a counter of: the sum of these counters.
  ghost function KindTotals(counters: map<nat, Counter>): Table<Etw.CounterKind> {
    map kind | kind in (set i | i in counters :: counters[i].kind) :: Sum(counters, OfKind, kind)
  }

  lemma {:induction false} KindsAreSummed(counters: map<nat, Counter>)
    ensures KindSums(counters) == KindTotals(counters)
  {
    forall kind ensures Sum(counters, CounterBytes, kind) == Sum(counters, OfKind, kind) {
      SumMapped(counters, counters, CounterBytes, OfKind, kind);
    }
  }

  // ---- The lines --------------------------------------------------------------------------------

  // The step's look at the child is the one that finds it exiting.
  predicate FindsExit(s: State, e: Event) {
    Looks(s, e) && !s.watch.exiting && e.probe.hasHandle && e.probe.child.Exiting?
  }

  function ExitLine(s: State, e: Event): seq<Line> {
    if FindsExit(s, e) then [TargetExitingLine(s.watch.aliveTs, e.probe.nowTs)] else []
  }

  // What a paging operation that is let through writes: the bound object, if any, and the record or else the id.
  function PagingLine(s: State, v: View, ts: nat, lib: nat, op: Etw.ResidencyOp): Line {
    if Names(v, lib) && v.names[lib] in s.etw
    then ResidencyLine(ts, s.etw[v.names[lib]].boundId, v.names[lib], op) else ResidencyLine(ts, 0, lib, op)
  }

  ghost function CountersWritten(nowTs: nat, counters: map<nat, Counter>, n: Count): seq<Line> {
    if n.samples == map[] then [] else
      [CountersLine(nowTs, KindTotals(counters), exists i | i in counters :: IsDemoted(counters[i].kind),
                    Sum(counters, DemotedBytes, ()), n.pageIns, n.pageOuts)]
  }

  ghost function Written(s: State, v: View, n: Count, e: Event): seq<Line> {
    match e
    case EtwAddressEvent(lib, addr, _, _) =>
      if addr != 0 && Names(v, lib) && v.objects[v.names[lib]].address == 0 && !Repeats(v, v.names[lib], addr)
         && v.names[lib] in s.etw
      then ObjectWritten(v.names[lib], v.objects[v.names[lib]], s.etw[v.names[lib]].createdTs, addr)
      else []
    case EtwDestroyedEvent(abs, lib) =>
      if Names(v, lib) && v.objects[v.names[lib]].address != 0
      then [ObjectDestroyedLine(ConvTs(s.tb, abs), v.names[lib])] else []
    case EtwResidencyEvent(_, lib, op, _) =>
      ExitLine(s, e) + if !KeptOut(s, e) && (op.PageIn? || op.PageOut?) then [PagingLine(s, v, Stamp(s, e), lib, op)]
                       else []
    case ReportEvent(nowTs) => CountersWritten(nowTs, s.stats.counters, n)
    case _ => ExitLine(s, e)
  }

  function ObjectWritten(k: nat, o: LibObject, ts: nat, addr: nat): seq<Line> {
    [ObjectLine(ts, k, o.kind, addr, o.size, o.loc)]
  }

  ghost function ReportsOf(es: seq<Event>): seq<Line> {
    if es == [] then [] else
      var before, e := es[..|es| - 1], es[|es| - 1];
      ReportsOf(before) + Written(Run(INITIAL, before), Seen(before), CountOf(before), e)
  }

  // ---- What each step writes --------------------------------------------------------------------

  lemma FilteredWrites(s: State, e: Event)
    requires IsStamped(e)
    ensures var t := Filtered(s, Stamp(s, e), e.probe);
            && t == s.(watch := t.watch, log := t.log) && Reports(t.log) == Reports(s.log) + ExitLine(s, e)
  {
    hide Reports, ConvTs;
    ReportsMore(s.log, TargetExitingLine(s.watch.aliveTs, e.probe.nowTs));
  }

  lemma DroppedGroupLog(s: State, e: Event)
    requires e.EtwGroupEvent? && KeptOut(s, e)
    ensures Step(s, e).log == Filtered(s, Stamp(s, e), e.probe).log
  {
    FilteredWatch(s, Stamp(s, e), e.probe);
    hide ApplyGroup, Filtered, ConvTs, Ignored, FromGroup, PollChild;
  }

  lemma GroupWrites(s: State, e: Event)
    requires e.EtwGroupEvent?
    ensures Reports(Step(s, e).log) == Reports(s.log) + ExitLine(s, e)
  {
    FilteredWrites(s, e);
    hide Reports, ApplyGroup, Filtered, ConvTs, ExitLine, FromGroup, Step, KeptOut;
    if KeptOut(s, e) {
      DroppedGroupLog(s, e);
    } else {
      AppliedStep(s, e);
      var u := GroupCounted(s, e);
      if Known(u, e.lib) {
        ApplyGroupAppends(u, u.ix.alias[e.lib], FromGroup(e.group), Stamp(s, e), e.pick);
        ReportsKept(u.log, ApplyGroup(u, u.ix.alias[e.lib], FromGroup(e.group), Stamp(s, e), e.pick).log, Stamp(s, e));
      }
    }
  }

  lemma ResidencyLog(s: State, v: View, e: Event)
    requires e.EtwResidencyEvent? && v.names == s.ix.alias && v.objects.Keys == s.etw.Keys
    ensures Step(s, e).log == Filtered(s, Stamp(s, e), e.probe).log
                              + if !KeptOut(s, e) && (e.op.PageIn? || e.op.PageOut?)
                                then [PagingLine(s, v, Stamp(s, e), e.lib, e.op)] else []
  {
    FilteredWatch(s, Stamp(s, e), e.probe);
    hide Filtered, ConvTs, Ignored, CountResidency, PollChild;
  }

  lemma ResidencyWrites(s: State, v: View, n: Count, e: Event)
    requires e.EtwResidencyEvent? && Agrees(s, v)
    ensures Reports(Step(s, e).log) == Reports(s.log) + Written(s, v, n, e)
  {
    hide Reports, Filtered, ConvTs, ExitLine, Step, KeptOut, PagingLine, Shows, OnHello;
    FilteredWrites(s, e);
    ResidencyLog(s, v, e);
    hide Agrees;
    var log, l := Filtered(s, Stamp(s, e), e.probe).log, PagingLine(s, v, Stamp(s, e), e.lib, e.op);
    ReportsMore(log, l);
    assert !JoinLine(l) by { PagingIsReport(s, v, Stamp(s, e), e.lib, e.op); }
    hide Stamp, JoinLine;
    assert log + [] == log;
  }

  lemma PagingIsReport(s: State, v: View, ts: nat, lib: nat, op: Etw.ResidencyOp)
    ensures !JoinLine(PagingLine(s, v, ts, lib, op))
  {
  }

  lemma CounterWrites(s: State, v: View, n: Count, e: Event)
    requires e.EtwCounterEvent?
    ensures Reports(Step(s, e).log) == Reports(s.log) + Written(s, v, n, e)
  {
    if e.abs > 0 {
      FilteredWrites(s, e);
    }
    hide Reports, Filtered, ConvTs, Ignored, FromMb;
  }

  lemma ReportWrites(s: State, v: View, n: Count, e: Event)
    requires e.ReportEvent? && StatsOf(s.stats, n)
    ensures Reports(Step(s, e).log) == Reports(s.log) + Written(s, v, n, e)
  {
    var c := s.stats.counters;
    DemotedAreSummed(c);
    KindsAreSummed(c);
    hide Reports, KindSums, KindTotals, Sum, DemotedSum, AnyDemoted, InBytes;
    assert c == map[] <==> n.samples == map[] by { assert c.Keys == n.samples.Keys; }
    if c != map[] {
      ReportsMore(s.log, Step(s, e).log[|s.log|]);
    }
  }

  lemma AddressWrites(s: State, v: View, n: Count, e: Event)
    requires e.EtwAddressEvent? && Agrees(s, v) && AddrIndex(s)
    ensures Reports(Step(s, e).log) == Reports(s.log) + Written(s, v, n, e)
  {
    hide TryBind, Fold, OnTimeline, OnHello, Repeats, Reports, SetAddress;
    if e.addr != 0 && Known(s, e.lib) {
      var key := s.ix.alias[e.lib];
      assert Shows(v.objects[key], s.etw[key]);
      if s.etw[key].address == 0 {
        RepeatsIsReReport(s, v, key, e.addr);
        LandingWrites(s, v.objects[key], key, e.addr, e.nowMs, e.pick);
        hide Agrees, AddrIndex, IsReReport, ObjectWritten;
      }
    }
  }

  lemma LandingWrites(s: State, o: LibObject, key: nat, addr: nat, nowMs: nat, pick: Order)
    requires key in s.etw && Shows(o, s.etw[key])
    ensures var ts := s.etw[key].createdTs;
            if IsReReport(s, key, addr)
            then Reports(TryBind(Fold(s, key, s.ix.byAddr[addr], pick), s.ix.byAddr[addr], ts, nowMs, pick).log)
                 == Reports(s.log)
            else Reports(TryBind(SetAddress(s, key, addr), key, ts, nowMs, pick).log)
                 == Reports(s.log) + ObjectWritten(key, o, ts, addr)
  {
    var ts := s.etw[key].createdTs;
    hide TryBind, Fold, OnTimeline, Reports;
    if IsReReport(s, key, addr) {
      var into := s.ix.byAddr[addr];
      var t := Fold(s, key, into, pick);
      FoldAppends(s, key, into, pick);
      ReportsKept(s.log, t.log, ts);
      TryBindAppends(t, into, ts, nowMs, pick);
      ReportsKept(t.log, TryBind(t, into, ts, nowMs, pick).log, ts);
    } else {
      var t := SetAddress(s, key, addr);
      ReportsMore(s.log, ObjectWritten(key, o, ts, addr)[0]);
      TryBindAppends(t, key, ts, nowMs, pick);
      ReportsKept(t.log, TryBind(t, key, ts, nowMs, pick).log, ts);
    }
  }

  lemma EtwDestroyedWrites(s: State, v: View, n: Count, e: Event)
    requires e.EtwDestroyedEvent? && Agrees(s, v)
    ensures Reports(Step(s, e).log) == Reports(s.log) + Written(s, v, n, e)
  {
    hide Reports, ConvTs, SubDriver, OnTimeline, OnHello, EtwDestroyedIndexes;
    if Known(s, e.lib) {
      var key := s.ix.alias[e.lib];
      assert Shows(v.objects[key], s.etw[key]);
      ReportsMore(s.log, ObjectDestroyedLine(ConvTs(s.tb, e.abs), key));
    }
  }

  lemma PollWrites(s: State, e: Event)
    requires e.PollEvent?
    ensures Reports(Step(s, e).log) == Reports(s.log) + ExitLine(s, e)
  {
    hide Reports;
    ReportsMore(s.log, TargetExitingLine(s.watch.aliveTs, e.probe.nowTs));
  }

  // The stamp of the lines that an event of the join writes.
  function JoinStamp(s: State, e: Event): nat {
    if e.CreatedEvent? || e.DestroyedEvent? then e.ts else if e.EtwSizeEvent? then ConvTs(s.tb, e.abs) else 0
  }

  // Creations, destructions and sizes write about the join only, with their own stamp; the rest writes nothing.
  lemma JoinWrites(s: State, e: Event)
    requires !e.EtwAddressEvent? && !e.EtwDestroyedEvent? && !IsStamped(e) && !e.ReportEvent? && !e.PollEvent?
    requires !e.EtwCounterEvent?
    ensures AppendsJoin(s.log, Step(s, e).log, JoinStamp(s, e))
  {
    hide Created, Destroyed, ApplySize, ConvTs, AddDriver, ExpireQueue, Prune;
    match e
    case CreatedEvent(ts, p, pick) => CreatedAppends(s, ts, p, pick);
    case DestroyedEvent(ts, id, pick) => DestroyedAppends(s, ts, id, pick);
    case EtwSizeEvent(abs, lib, size) =>
      if Known(s, lib) { ApplySizeAppends(s, s.ix.alias[lib], size, ConvTs(s.tb, abs)); }
    case TickEvent(nowMs, nowTs) =>
      ExpireQueueFrame(s, nowMs);
      ExpireWrites(s, nowMs);
      PruneFrame(ExpireQueue(s, nowMs), nowTs);
    case _ =>
  }

  lemma {:induction false} ExpireWrites(s: State, nowMs: nat)
    ensures ExpireQueue(s, nowMs).log == s.log
    decreases |s.ix.pendingQ|
  {
    hide Waited;
    if s.ix.pendingQ != [] {
      if Stale(s, s.ix.pendingQ[0]) {
        ExpireWrites(Dequeue(s), nowMs);
      } else if Waited(nowMs, s.etw[s.ix.pendingQ[0]].pendingSince) >= PENDING_TIMEOUT_MS {
        ExpireWrites(Dequeue(ExpireFirst(s)), nowMs);
      }
    }
  }

  lemma NoExit(s: State, e: Event)
    requires !IsStamped(e) && !e.PollEvent?
    ensures ExitLine(s, e) == []
  {
  }

  lemma StepWrites(s: State, env: Issued, v: View, n: Count, e: Event)
    requires Inv(s, env) && Agrees(s, v) && StatsOf(s.stats, n)
    ensures Reports(Step(s, e).log) == Reports(s.log) + Written(s, v, n, e)
  {
    hide Inv, Agrees, Step, StatsOf, Forest, AddrIndex, Reports, ExitLine, ObjectWritten, CountersWritten, PagingLine,
         KeptOut, Stamp, Repeats;
    InvForest(s, env);
    if e.EtwAddressEvent? {
      AddressWrites(s, v, n, e);
    } else if e.EtwDestroyedEvent? {
      EtwDestroyedWrites(s, v, n, e);
    } else if e.EtwGroupEvent? {
      GroupWrites(s, e);
    } else if e.EtwResidencyEvent? {
      ResidencyWrites(s, v, n, e);
    } else if e.EtwCounterEvent? {
      CounterWrites(s, v, n, e);
    } else if e.ReportEvent? {
      ReportWrites(s, v, n, e);
    } else if e.PollEvent? {
      PollWrites(s, e);
    } else {
      JoinWrites(s, e);
      ReportsKept(s.log, Step(s, e).log, JoinStamp(s, e));
      NoExit(s, e);
    }
  }

  // In every reachable state the report lines are, in order, what the events say: each address and end of a library
  // object, each paging operation that was let through, the child's exit, and the counters of each report.
  lemma {:induction false} ReportsAreEvents(es: seq<Event>, s: State, env: Issued)
    requires Reached(es, s, env)
    ensures Reports(s.log) == ReportsOf(es)
  {
    hide Inv, Agrees, Step, Allowed, JoinRuns.Next, Written, StatsOf, Reports, Saw;
    if es != [] {
      var before := es[..|es| - 1];
      var s0, env0 := Run(INITIAL, before), Issuing(INITIAL, NOTHING_ISSUED, before);
      ReportsAreEvents(before, s0, env0);
      StatisticsAreCounts(before, s0, env0);
      RecordsAreReports(before, s0, env0);
      ReachedInv(before, s0, env0);
      StepWrites(s0, env0, Seen(before), CountOf(before), es[|es| - 1]);
    } else {
      NothingWritten();
    }
  }

  lemma NothingWritten()
    ensures Reports(INITIAL.log) == []
  {
  }

  // The statistics line at the end tells the counts of the events.
  lemma SummaryTellsCounts(es: seq<Event>, s: State, env: Issued, bound: nat, unbound: nat, byType: Table<Etw.ObjType>)
    requires Reached(es, s, env)
    ensures var m, n := SummaryOf(s.stats, bound, unbound, byType), CountOf(es);
            && m.created == n.objects && m.rundownDuplicates == n.repeats && m.groupChanges == n.groupChanges
            && m.makeResident == n.makeResident && m.evict == n.evict && m.pageIns == n.pageIns
            && m.pageOuts == n.pageOuts && m.postExitIgnored == n.ignored
            && m.boundAlive == bound && m.unboundAlive == unbound && m.unboundByType == byType
            && m.binds == s.stats.binds && m.lateMatches == s.stats.lateMatches && m.pendingExpired == |env.expired|
  {
    StatisticsAreCounts(es, s, env);
    LibraryObjectsAccounted(es, s, env);
    hide Reached, CountOf;
  }
}
