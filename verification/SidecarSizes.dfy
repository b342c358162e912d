// Driver sizes in the sidecar: whoever reads the driver_size lines has the size of every object that shows one.

module SidecarSizes {
  import opened Wire
  import opened Timeline
  import opened ChildWatch
  import opened JoinState
  import opened JoinSteps
  import opened JoinInvariants
  import opened JoinQueue
  import opened JoinPipe
  import opened JoinRuns
  import opened JoinTheorems
  import opened JoinHistory
  import opened SidecarLines
  import opened SidecarReports

  ghost predicate SizesTold(s: State) {
    forall i | i in s.live && s.live[i].driverSize != 0 ::
      i in SizesRead(s.log) && SizesRead(s.log)[i] == s.live[i].driverSize
  }

  // No new line about a size, and no size that was not there.
  ghost predicate SizesSame(s: State, t: State) {
    && SizesRead(t.log) == SizesRead(s.log)
    && forall i | i in t.live && t.live[i].driverSize != 0 ::
         i in s.live && t.live[i].driverSize == s.live[i].driverSize
  }

  lemma SizesSameTold(s: State, t: State)
    requires SizesTold(s) && SizesSame(s, t)
    ensures SizesTold(t)
  {
    hide SizesRead;
  }

  lemma UnsizedTold(s: State, t: State)
    requires SizesTold(s) && Appends(s.log, t.log)
    requires forall i | |s.log| <= i < |t.log| :: !t.log[i].DriverSizeLine?
    requires forall i | i in t.live && t.live[i].driverSize != 0 ::
               i in s.live && t.live[i].driverSize == s.live[i].driverSize
    ensures SizesTold(t)
  {
    SizesKept(s.log, t.log);
    hide SizesRead;
  }

  lemma SetSizeTold(s: State, id: nat, size: nat, ts: nat)
    requires SizesTold(s) && id in s.live
    ensures SizesTold(SetDriverSize(s, id, size, ts))
  {
    SizesMore(s.log, DriverSizeLine(ts, id, size));
    hide SizesRead;
  }

  lemma BindTold(s: State, key: nat, id: nat, ts: nat, pick: Order)
    requires SizesTold(s) && key in s.etw && id in s.live
    ensures SizesTold(Bind(s, key, id, ts, pick))
  {
    var e := s.etw[key];
    var a := Attach(s, key, id, ts);
    AttachLine(s, key, id, ts);
    SizesMore(s.log, BindLine(ts, id, key, e.kind, s.live[id].ptr, false));
    RelocateAppends(a, id, e.group, ts, !s.live[id].locReported, pick);
    var t := Relocate(a, id, e.group, ts, !s.live[id].locReported, pick);
    SizesKept(a.log, t.log);
    hide Relocate, SizesRead, Displaced, IsDriverType, SetDriverSize;
    SizesSameTold(s, t);
    SetSizeTold(t, id, e.size, ts);
  }

  lemma TryBindTold(s: State, key: nat, ts: nat, nowMs: nat, pick: Order)
    requires SizesTold(s)
    ensures SizesTold(TryBind(s, key, ts, nowMs, pick))
  {
    hide Bind, CanBind, FirstMatch, DeadAt, SizesRead;
    if key in s.etw && !Settled(s.etw[key]) {
      var e := s.etw[key];
      if HasLiveMatch(s, e) {
        BindTold(s, key, s.ix.ptrToId[e.address], ts, pick);
      } else if HasLateMatch(s, e) {
        SizesMore(s.log, BindLine(ts, DeadAt(s, e.address)[FirstMatch(e, DeadAt(s, e.address))].id, key, e.kind,
                                  e.address, true));
      }
    }
  }

  lemma ApplyGroupTold(s: State, key: nat, g: MemLoc, ts: nat, pick: Order)
    requires SizesTold(s) && key in s.etw
    ensures SizesTold(ApplyGroup(s, key, g, ts, pick))
  {
    ApplyGroupAppends(s, key, g, ts, pick);
    SizesKept(s.log, ApplyGroup(s, key, g, ts, pick).log);
    hide Relocate, SizesRead;
    SizesSameTold(s, ApplyGroup(s, key, g, ts, pick));
  }

  lemma ApplySizeTold(s: State, key: nat, size: nat, ts: nat)
    requires SizesTold(s) && key in s.etw
    ensures SizesTold(ApplySize(s, key, size, ts))
  {
    var e := s.etw[key];
    if e.boundId in s.live {
      SetSizeTold(s, e.boundId, size, ts);
    }
    hide AddDriver, SubDriver, SizesRead;
  }

  lemma AddressTold(s: State, lib: nat, addr: nat, nowMs: nat, pick: Order)
    requires SizesTold(s)
    ensures SizesTold(EtwAddress(s, lib, addr, nowMs, pick))
  {
    hide TryBind, Fold, SizesTold, SetAddress;
    if addr != 0 && Known(s, lib) && s.etw[s.ix.alias[lib]].address == 0 {
      var key := s.ix.alias[lib];
      var ts := s.etw[key].createdTs;
      if IsReReport(s, key, addr) {
        FoldTold(s, key, s.ix.byAddr[addr], pick);
        TryBindTold(Fold(s, key, s.ix.byAddr[addr], pick), s.ix.byAddr[addr], ts, nowMs, pick);
      } else {
        PlaceTold(s, key, addr);
        TryBindTold(SetAddress(s, key, addr), key, ts, nowMs, pick);
      }
    }
  }

  lemma PlaceTold(s: State, key: nat, addr: nat)
    requires SizesTold(s) && key in s.etw
    ensures SizesTold(SetAddress(s, key, addr))
  {
    var e := s.etw[key];
    SizesMore(s.log, ObjectLine(e.createdTs, key, e.kind, addr, e.size, e.group));
    hide SizesRead;
  }

  lemma FoldTold(s: State, key: nat, into: nat, pick: Order)
    requires SizesTold(s) && key in s.etw && into in s.etw && key != into
    ensures SizesTold(Fold(s, key, into, pick))
  {
    var c, e := CountDuplicate(s), s.etw[key];
    ApplySizeTold(c, into, e.size, e.createdTs);
    hide ApplySize, ApplyGroup, SubDriver, SizesRead;
    var t := if e.size != 0 then ApplySize(c, into, e.size, e.createdTs) else c;
    ApplyGroupTold(t, into, e.group, e.createdTs, pick);
  }

  lemma CreatedTold(s: State, ts: nat, p: CreatedPayload, pick: Order)
    requires SizesTold(s) && p.id !in s.live
    ensures SizesTold(Created(s, ts, p, pick))
  {
    EnterTold(s, ts, p);
    var t := Enter(Admit(s, p), p.id, ts);
    hide Enter, Bind, CanBind, SizesTold;
    var o := t.live[p.id];
    if o.ptr != 0 && o.ptr in t.ix.byAddr && t.ix.byAddr[o.ptr] in t.etw && CanBind(t.etw[t.ix.byAddr[o.ptr]], o) {
      BindTold(t, t.ix.byAddr[o.ptr], p.id, ts, pick);
    }
  }

  lemma EnterTold(s: State, ts: nat, p: CreatedPayload)
    requires SizesTold(s) && p.id !in s.live
    ensures var t := Enter(Admit(s, p), p.id, ts); p.id in t.live && SizesTold(t)
  {
    hide SizesTold, Enter;
    EnterAppends(s, ts, p);
    EnterSizes(s, ts, p);
    UnsizedTold(s, Enter(Admit(s, p), p.id, ts));
  }

  lemma EnterSizes(s: State, ts: nat, p: CreatedPayload)
    requires p.id !in s.live
    ensures var t := Enter(Admit(s, p), p.id, ts);
            && t.live.Keys == s.live.Keys + {p.id} && t.live[p.id].driverSize == 0
            && forall i | i in s.live :: t.live[i].driverSize == s.live[i].driverSize
  {
    hide RecomputeLoc, AddTotals, DeadAt, IsPlaced, AddLoc, EffLoc;
  }

  lemma DestroyedTold(s: State, ts: nat, id: nat, pick: Order)
    requires SizesTold(s)
    ensures SizesTold(Destroyed(s, ts, id, pick))
  {
    hide SizesTold, Destroyed;
    DestroyedAppends(s, ts, id, pick);
    DestroyedSizes(s, ts, id, pick);
    UnsizedTold(s, Destroyed(s, ts, id, pick));
  }

  lemma DestroyedSizes(s: State, ts: nat, id: nat, pick: Order)
    ensures var t := Destroyed(s, ts, id, pick);
            forall i | i in t.live :: i in s.live && t.live[i].driverSize == s.live[i].driverSize
  {
    hide SubTotals, SubLoc, FallBackEach, DeadAt, IsPlaced;
  }

  // The other events tell nothing of sizes.
  lemma QuietTold(s: State, e: Event)
    requires SizesTold(s) && !e.CreatedEvent? && !e.DestroyedEvent? && !e.EtwAddressEvent? && !e.EtwSizeEvent?
    requires !e.EtwGroupEvent?
    ensures SizesTold(Step(s, e))
  {
    hide SizesTold, Step;
    QuietLines(s, e);
    QuietSizes(s, e);
    UnsizedTold(s, Step(s, e));
  }

  lemma QuietSizes(s: State, e: Event)
    requires !e.CreatedEvent? && !e.DestroyedEvent? && !e.EtwAddressEvent? && !e.EtwSizeEvent? && !e.EtwGroupEvent?
    ensures forall i | i in Step(s, e).live :: i in s.live && Step(s, e).live[i].driverSize == s.live[i].driverSize
  {
    hide PollChild, Ignored, ConvTs, KindSums, FromMb, SubDriver, AddDriver, ExpireQueue, Prune, EtwDestroyedIndexes,
         CountResidency, DemotedSum, AnyDemoted;
    if e.TickEvent? {
      ExpireQueueFrame(s, e.nowMs);
      PruneFrame(ExpireQueue(s, e.nowMs), e.nowTs);
    }
  }

  // Only other lines follow.
  ghost predicate Unsized(log: seq<Line>, log2: seq<Line>) {
    Appends(log, log2) && forall i | |log| <= i < |log2| :: !log2[i].DriverSizeLine?
  }

  lemma FilteredLines(s: State, ts: nat, p: Probe)
    ensures Unsized(s.log, Filtered(s, ts, p).log)
  {
    hide PollChild;
  }

  lemma ResidencyLines(s: State, e: Event)
    requires e.EtwResidencyEvent?
    ensures Unsized(s.log, Step(s, e).log)
  {
    FilteredLines(s, ConvTs(s.tb, e.abs), e.probe);
    hide Filtered, Ignored, ConvTs, CountResidency, Known;
  }

  lemma QuietLines(s: State, e: Event)
    requires !e.CreatedEvent? && !e.DestroyedEvent? && !e.EtwAddressEvent? && !e.EtwSizeEvent? && !e.EtwGroupEvent?
    ensures Unsized(s.log, Step(s, e).log)
  {
    hide PollChild, Filtered, Ignored, ConvTs, KindSums, FromMb, SubDriver, AddDriver, ExpireQueue, Prune,
         EtwDestroyedIndexes, EtwResidency, DemotedSum, AnyDemoted;
    if e.EtwResidencyEvent? {
      ResidencyLines(s, e);
    } else if e.EtwCounterEvent? {
      FilteredLines(s, ConvTs(s.tb, e.abs), e.probe);
    } else if e.TickEvent? {
      ExpireWrites(s, e.nowMs);
      PruneFrame(ExpireQueue(s, e.nowMs), e.nowTs);
    }
  }

  lemma GroupTold(s: State, e: Event)
    requires SizesTold(s) && e.EtwGroupEvent?
    ensures SizesTold(Step(s, e))
  {
    hide SizesTold, Filtered, ApplyGroup, ConvTs, Ignored, FromGroup;
    var ts := ConvTs(s.tb, e.abs);
    var t := Filtered(s, ts, e.probe);
    FilteredTold(s, ts, e.probe);
    var u := t.(stats := t.stats.(groupChanges := t.stats.groupChanges + 1));
    var w := t.(stats := t.stats.(postExitIgnored := t.stats.postExitIgnored + 1));
    SameTold(t, u);
    SameTold(t, w);
    if Known(u, e.lib) {
      ApplyGroupTold(u, u.ix.alias[e.lib], FromGroup(e.group), ts, e.pick);
    }
  }

  lemma SameTold(s: State, t: State)
    requires SizesTold(s) && t.live == s.live && t.log == s.log
    ensures SizesTold(t)
  {
  }

  lemma FilteredTold(s: State, ts: nat, p: Probe)
    requires SizesTold(s)
    ensures SizesTold(Filtered(s, ts, p))
  {
    SizesMore(s.log, TargetExitingLine(s.watch.aliveTs, p.nowTs));
    hide SizesRead, PollChild;
  }

  lemma StepTold(s: State, env: Issued, e: Event)
    requires Inv(s, env) && Allowed(s, env, e) && SizesTold(s)
    ensures SizesTold(Step(s, e))
  {
    hide Inv, Created, Destroyed, EtwAddress, ApplySize, SizesTold, ConvTs, FreshObject;
    if e.CreatedEvent? {
      FreshId(s, env, e.p);
      CreatedTold(s, e.ts, e.p, e.pick);
    } else if e.DestroyedEvent? {
      DestroyedTold(s, e.ts, e.id, e.pick);
    } else if e.EtwAddressEvent? {
      AddressTold(s, e.lib, e.addr, e.nowMs, e.pick);
    } else if e.EtwSizeEvent? {
      if Known(s, e.lib) { ApplySizeTold(s, s.ix.alias[e.lib], e.size, ConvTs(s.tb, e.abs)); }
    } else if e.EtwGroupEvent? {
      GroupTold(s, e);
    } else {
      QuietTold(s, e);
    }
  }

  // Whoever reads the log has the driver size of every object that shows one.
  lemma {:induction false} SizesAreRead(es: seq<Event>, s: State, env: Issued)
    requires Reached(es, s, env)
    ensures SizesTold(s)
  {
    hide Inv, Step, Allowed, JoinRuns.Next, SizesTold;
    if es != [] {
      var before := es[..|es| - 1];
      var s0, env0 := Run(INITIAL, before), Issuing(INITIAL, NOTHING_ISSUED, before);
      SizesAreRead(before, s0, env0);
      ReachedInv(before, s0, env0);
      StepTold(s0, env0, es[|es| - 1]);
    } else {
      NothingTold();
    }
  }

  lemma NothingTold()
    ensures SizesTold(INITIAL)
  {
  }
}
