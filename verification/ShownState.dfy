// What the launcher shows of an object, from the reports of its record and the messages of the objects.

module ShownState {
  import opened Wire
  import opened Tallies
  import opened Timeline
  import opened ChildWatch
  import opened JoinState
  import opened JoinSteps
  import opened JoinInvariants
  import opened JoinQueue
  import opened JoinPipe
  import opened JoinAccounts
  import opened JoinRuns
  import opened JoinTheorems
  import opened JoinHistory
  import opened JoinAttribution
  import opened TeardownFilter
  import opened LibraryView
  import opened ObjectView
  import Etw

  // ---- Bound objects ----------------------------------------------------------------------------

  // A bound object and its record have the same type by name, and the object shows the record's latest location and,
  // for the three types that the driver allocates for, its latest size.
  lemma BoundShowsReports(es: seq<Event>, s: State, env: Issued, i: nat)
    requires Reached(es, s, env) && i in s.live && s.live[i].etwKey != 0
    ensures s.live[i].etwKey in Seen(es).objects && i in Present(es)
    ensures var r, o := Seen(es).objects[s.live[i].etwKey], Present(es)[i];
            && SameType(r.kind, o.kind) && r.address == o.ptr != 0 && s.live[i].ownLoc == r.loc
            && (r.kind.PipelineState? || r.kind.DescriptorHeap? || r.kind.CommandAllocator? ==>
                  s.live[i].driverSize == r.size)
  {
    hide Reached, Seen, Present, OnTimeline, OnHello, Compatible, SameType, Attributable;
    BoundPairsAgree(es, s, env, i, s.live[i].etwKey);
    RecordsAreReports(es, s, env);
    ObjectsAreMessages(es, s, env);
    TypesByName();
    assert Shows(Seen(es).objects[s.live[i].etwKey], s.etw[s.live[i].etwKey]);
  }

  // An object that is placed in a live heap of known location is shown there; any other at its own.
  lemma ShownLocation(es: seq<Event>, s: State, env: Issued, i: nat)
    requires Reached(es, s, env) && i in s.live
    ensures i in Present(es)
    ensures var p := Present(es)[i];
            if p.alloc.Placed? && p.parentHeapId != 0 && p.parentHeapId in s.live
               && s.live[p.parentHeapId].ownLoc != MemLoc.Unknown
            then s.live[i].effLoc == s.live[p.parentHeapId].ownLoc
            else s.live[i].effLoc == s.live[i].ownLoc
  {
    hide Reached, Present;
    LocationsAreCurrent(es, s, env, i);
    ObjectsAreMessages(es, s, env);
  }

  // A group change that the filter lets through reaches its object and what is placed in it at once: local is video
  // memory, non-local is system memory.
  lemma GroupChangeIsShown(es: seq<Event>, s: State, env: Issued, e: Event, i: nat)
    requires Reached(es, s, env) && e.EtwGroupEvent? && Allowed(s, env, e) && !KeptOut(s, e)
    requires i in s.live && s.live[i].etwKey != 0 && Names(Seen(es), e.lib) && Seen(es).names[e.lib] == s.live[i].etwKey
    ensures var t := Step(s, e);
            && i in t.live
            && (e.group.Local? ==> t.live[i].ownLoc == Vram) && (e.group.NonLocal? ==> t.live[i].ownLoc == Sys)
            && (e.group.UnknownGroup? ==> t.live[i].ownLoc == MemLoc.Unknown)
            && forall c | c in t.live && t.live[c].alloc.Placed? && t.live[c].parent == i ::
                 t.live[c].effLoc
                 == if e.group.Local? then Vram else if e.group.NonLocal? then Sys else t.live[c].ownLoc
  {
    hide Seen, KeptOut, Step, Inv, Allowed, JoinRuns.Next, Reached;
    var t, env2, more := Step(s, e), JoinRuns.Next(s, env, e), es + [e];
    ReachedMore(es, s, env, e);
    SeenMore(es, s, env, e);
    ReachedInv(es, s, env);
    GroupKeepsPairs(s, e);
    BoundShowsReports(more, t, env2, i);
    forall c | c in t.live && t.live[c].alloc.Placed? && t.live[c].parent == i
      ensures t.live[c].effLoc == if e.group.Local? then Vram else if e.group.NonLocal? then Sys else t.live[c].ownLoc
    {
      ShownLocation(more, t, env2, c);
      ObjectsAreMessages(more, t, env2);
      LiveIsNotZero(more, t, env2, i);
    }
  }

  lemma LiveIsNotZero(es: seq<Event>, s: State, env: Issued, i: nat)
    requires Reached(es, s, env) && i in s.live
    ensures i != 0
  {
    hide Reached, Inv;
    ReachedInv(es, s, env);
    InvObjects(s, env);
  }

  lemma GroupKeepsPairs(s: State, e: Event)
    requires e.EtwGroupEvent?
    ensures var t := Step(s, e);
            t.live.Keys == s.live.Keys && forall i | i in s.live :: t.live[i].etwKey == s.live[i].etwKey
  {
    hide Step, Dropped, ConvTs, FromGroup, Filtered, RecomputeLoc, RecomputeChildren;
    if KeptOut(s, e) {
      DroppedChangesNothing(s, e);
    } else {
      FilteredPast(s, ConvTs(s.tb, e.abs), e.probe);
      AppliedStep(s, e);
    }
  }

  lemma ReachedMore(es: seq<Event>, s: State, env: Issued, e: Event)
    requires Reached(es, s, env) && Allowed(s, env, e)
    ensures Reached(es + [e], Step(s, e), JoinRuns.Next(s, env, e))
  {
    hide Allowed, JoinRuns.Next, Step;
    assert (es + [e])[..|es|] == es;
  }

  lemma SeenMore(es: seq<Event>, s: State, env: Issued, e: Event)
    requires Reached(es, s, env)
    ensures Seen(es + [e]) == Saw(Seen(es), e, KeptOut(s, e))
  {
    hide Saw, KeptOut, Fair, Issuing;
    assert (es + [e])[..|es|] == es;
  }

  // ---- Bytes by location ------------------------------------------------------------------------

  ghost function ShownBytes(c: LocCell, o: LiveObject): nat {
    if InRow(c.bucket, o.heapType) && !o.alloc.NoAllocation? && c.loc == o.effLoc then o.size else 0
  }

  // Each cell of the table of bytes by heap type and location is the sum over the objects that are shown there.
  lemma BytesByLocation(es: seq<Event>, s: State, env: Issued, c: LocCell)
    requires Reached(es, s, env)
    ensures At(s.locBytes, c) == Sum(s.live, ShownBytes, c)
  {
    hide Reached, Sum, LocWeight, ShownBytes;
    BytesAreExact(es, s, env, AllocCell(0, NoAllocation), c);
    forall i | i in s.live ensures LocWeight(c, s.live[i]) == ShownBytes(c, s.live[i]) {
      SameWeight(c, s.live[i]);
    }
    SumMapped(s.live, s.live, LocWeight, ShownBytes, c);
  }

  lemma SameWeight(c: LocCell, o: LiveObject)
    ensures LocWeight(c, o) == ShownBytes(c, o)
  {
  }

  // ---- Driver memory ----------------------------------------------------------------------------

  // The driver allocates for these types, and reports a size once it is known.
  predicate DriverSized(o: LibObject) {
    o.size != 0 && (o.kind.PipelineState? || o.kind.StateObject? || o.kind.DescriptorHeap? || o.kind.CommandAllocator?)
  }

  ghost function LibCount(kind: Etw.ObjType, o: LibObject): nat {
    if o.kind == kind then 1 else 0
  }

  ghost function LibSized(kind: Etw.ObjType, o: LibObject): nat {
    if o.kind == kind && DriverSized(o) then 1 else 0
  }

  ghost function LibBytes(kind: Etw.ObjType, o: LibObject): nat {
    if o.kind == kind && DriverSized(o) then o.size else 0
  }

  // Library objects by type, those with a driver size, and the sum of these, from the reports alone.
  lemma DriverTablesAreReports(es: seq<Event>, s: State, env: Issued, kind: Etw.ObjType)
    requires Reached(es, s, env)
    ensures At(s.drivers.live, kind) == Sum(Seen(es).objects, LibCount, kind)
    ensures At(s.drivers.sized, kind) == Sum(Seen(es).objects, LibSized, kind)
    ensures At(s.drivers.bytes, kind) == Sum(Seen(es).objects, LibBytes, kind)
  {
    hide Reached, Seen, Sum, TotalsInv, LocTally, KindWeight, SizedWeight, DriverWeight, LibCount, LibSized, LibBytes,
         OnTimeline;
    ReachedAccounts(es, s, env);
    RecordsAreReports(es, s, env);
    var m := Seen(es).objects;
    forall k | k in s.etw
      ensures KindWeight(kind, s.etw[k]) == LibCount(kind, m[k]) && SizedWeight(kind, s.etw[k]) == LibSized(kind, m[k])
      ensures DriverWeight(kind, s.etw[k]) == LibBytes(kind, m[k])
    {
      SameDriverWeights(m[k], s.etw[k], kind);
    }
    SumMapped(s.etw, m, KindWeight, LibCount, kind);
    SumMapped(s.etw, m, SizedWeight, LibSized, kind);
    SumMapped(s.etw, m, DriverWeight, LibBytes, kind);
  }

  lemma SameDriverWeights(o: LibObject, e: EtwObj, kind: Etw.ObjType)
    requires Shows(o, e)
    ensures KindWeight(kind, e) == LibCount(kind, o) && SizedWeight(kind, e) == LibSized(kind, o)
    ensures DriverWeight(kind, e) == LibBytes(kind, o)
  {
    hide OnTimeline;
  }

  // ---- Unbound objects --------------------------------------------------------------------------

  // An object that has no record, or has just lost it, keeps the location and the size it had.
  ghost predicate KeepsLast(s: State, t: State) {
    forall i | i in s.live && i in t.live && t.live[i].etwKey == 0 ::
      t.live[i].ownLoc == s.live[i].ownLoc && t.live[i].driverSize == s.live[i].driverSize
  }

  // Only objects with a record may differ in these fields.
  ghost predicate OnlyBoundDiffer(s: State, t: State) {
    && t.live.Keys == s.live.Keys
    && forall i | i in s.live ::
         t.live[i].etwKey != 0 || (s.live[i].etwKey == 0 && SameShown(s.live[i], t.live[i]))
  }

  lemma DifferTrans(s: State, t: State, u: State)
    requires OnlyBoundDiffer(s, t) && OnlyBoundDiffer(t, u)
    ensures OnlyBoundDiffer(s, u)
  {
  }

  predicate SameShown(o: LiveObject, p: LiveObject) {
    p.ownLoc == o.ownLoc && p.driverSize == o.driverSize
  }

  lemma BindDiffers(s: State, key: nat, id: nat, ts: nat, pick: Order)
    requires key in s.etw && key != 0 && id in s.live
    ensures OnlyBoundDiffer(s, Bind(s, key, id, ts, pick))
  {
    hide RecomputeLoc, RecomputeChildren, Displaced;
  }

  lemma TryBindDiffers(s: State, key: nat, ts: nat, nowMs: nat, pick: Order)
    requires key != 0
    ensures OnlyBoundDiffer(s, TryBind(s, key, ts, nowMs, pick))
  {
    hide Bind, CanBind, FirstMatch, DeadAt;
    if key in s.etw && !Settled(s.etw[key]) && HasLiveMatch(s, s.etw[key]) {
      BindDiffers(s, key, s.ix.ptrToId[s.etw[key].address], ts, pick);
    }
  }

  // The object that the record names, if any, has a record.
  predicate BoundThere(s: State, key: nat)
    requires key in s.etw
  {
    s.etw[key].boundId in s.live ==> s.live[s.etw[key].boundId].etwKey != 0
  }

  lemma GroupDiffers(s: State, key: nat, g: MemLoc, ts: nat, pick: Order)
    requires key in s.etw && BoundThere(s, key)
    ensures OnlyBoundDiffer(s, ApplyGroup(s, key, g, ts, pick))
  {
    hide RecomputeLoc, RecomputeChildren;
  }

  lemma SizeDiffers(s: State, key: nat, size: nat, ts: nat)
    requires key in s.etw && BoundThere(s, key)
    ensures var t := ApplySize(s, key, size, ts); OnlyBoundDiffer(s, t) && key in t.etw && BoundThere(t, key)
  {
    hide AddDriver, SubDriver;
  }

  lemma FoldDiffers(s: State, key: nat, into: nat, pick: Order)
    requires key in s.etw && into in s.etw && key != into && BoundThere(s, into)
    ensures OnlyBoundDiffer(s, Fold(s, key, into, pick))
  {
    var c, e := CountDuplicate(s), s.etw[key];
    SizeDiffers(c, into, e.size, e.createdTs);
    hide ApplySize, ApplyGroup, SubDriver;
    var t := if e.size != 0 then ApplySize(c, into, e.size, e.createdTs) else c;
    GroupDiffers(t, into, e.group, e.createdTs, pick);
    DifferTrans(c, t, ApplyGroup(t, into, e.group, e.createdTs, pick));
  }

  lemma AddressDiffers(s: State, env: Issued, lib: nat, addr: nat, nowMs: nat, pick: Order)
    requires Objects(s, env) && Binding(s) && AddrIndex(s)
    ensures OnlyBoundDiffer(s, EtwAddress(s, lib, addr, nowMs, pick))
  {
    hide TryBind, Fold;
    if addr != 0 && Known(s, lib) && s.etw[s.ix.alias[lib]].address == 0 {
      var key := s.ix.alias[lib];
      var ts := s.etw[key].createdTs;
      if IsReReport(s, key, addr) {
        var into := s.ix.byAddr[addr];
        assert BoundThere(s, into) by { assert 0 !in s.live && 0 !in s.etw; }
        FoldDiffers(s, key, into, pick);
        var u := Fold(s, key, into, pick);
        TryBindDiffers(u, into, ts, nowMs, pick);
        hide Objects, Binding, AddrIndex, OnlyBoundDiffer;
        DifferTrans(s, u, TryBind(u, into, ts, nowMs, pick));
      } else {
        TryBindDiffers(SetAddress(s, key, addr), key, ts, nowMs, pick);
      }
    }
  }

  lemma CreatedKeepsLast(s: State, env: Issued, ts: nat, p: CreatedPayload, pick: Order)
    requires p.id !in s.live && Binding(s) && AddrIndex(s)
    ensures KeepsLast(s, Created(s, ts, p, pick))
  {
    EnteredEnters(s, ts, p);
    var t := Enter(Admit(s, p), p.id, ts);
    hide Enter, Bind, CanBind;
    var o := t.live[p.id];
    if o.ptr != 0 && o.ptr in t.ix.byAddr && t.ix.byAddr[o.ptr] in t.etw && CanBind(t.etw[t.ix.byAddr[o.ptr]], o) {
      BindDiffers(t, t.ix.byAddr[o.ptr], p.id, ts, pick);
    }
  }

  lemma DestroyedKeepsLast(s: State, ts: nat, id: nat, pick: Order)
    ensures KeepsLast(s, Destroyed(s, ts, id, pick))
  {
    hide SubTotals, SubLoc, FallBackEach, DeadAt, IsPlaced;
  }

  lemma DifferKeepsLast(s: State, t: State)
    requires OnlyBoundDiffer(s, t)
    ensures KeepsLast(s, t)
  {
  }

  lemma InvBound(s: State, env: Issued, key: nat)
    requires Inv(s, env) && key in s.etw
    ensures BoundThere(s, key)
  {
    InvObjects(s, env);
    hide Inv;
    assert 0 !in s.live;
  }

  lemma SizeKeepsLast(s: State, env: Issued, e: Event)
    requires Inv(s, env) && e.EtwSizeEvent?
    ensures KeepsLast(s, Step(s, e))
  {
    hide Inv, ApplySize, ConvTs;
    if Known(s, e.lib) {
      InvBound(s, env, s.ix.alias[e.lib]);
      SizeDiffers(s, s.ix.alias[e.lib], e.size, ConvTs(s.tb, e.abs));
    }
  }

  lemma GroupKeepsLast(s: State, env: Issued, e: Event)
    requires Inv(s, env) && e.EtwGroupEvent?
    ensures KeepsLast(s, Step(s, e))
  {
    hide Inv, ApplyGroup, ConvTs, PollChild, Ignored, FromGroup;
    var t := Filtered(s, ConvTs(s.tb, e.abs), e.probe);
    var u := t.(stats := t.stats.(groupChanges := t.stats.groupChanges + 1));
    if Known(s, e.lib) {
      InvBound(s, env, s.ix.alias[e.lib]);
      GroupDiffers(u, s.ix.alias[e.lib], FromGroup(e.group), ConvTs(s.tb, e.abs), e.pick);
    }
  }

  lemma AddressKeepsLast(s: State, env: Issued, e: Event)
    requires Inv(s, env) && e.EtwAddressEvent?
    ensures KeepsLast(s, Step(s, e))
  {
    InvObjects(s, env);
    InvForest(s, env);
    hide Inv, EtwAddress, Forest, OnlyBoundDiffer, Objects, Binding, AddrIndex, KeepsLast;
    AddressDiffers(s, env, e.lib, e.addr, e.nowMs, e.pick);
    DifferKeepsLast(s, Step(s, e));
  }

  lemma QuietKeepsLast(s: State, e: Event)
    requires !e.CreatedEvent? && !e.DestroyedEvent? && !e.EtwAddressEvent? && !e.EtwSizeEvent? && !e.EtwGroupEvent?
    ensures KeepsLast(s, Step(s, e))
  {
    hide PollChild, Ignored, ConvTs, KindSums, FromMb, SubDriver, AddDriver, ExpireQueue, Prune, EtwDestroyedIndexes,
         CountResidency;
    if e.TickEvent? {
      ExpireQueueFrame(s, e.nowMs);
      PruneFrame(ExpireQueue(s, e.nowMs), e.nowTs);
    }
  }

  // Losing its record changes nothing of what is shown of an object, and neither does anything while it has none.
  lemma UnboundKeepsLast(es: seq<Event>, s: State, env: Issued, e: Event)
    requires Reached(es, s, env) && Allowed(s, env, e)
    ensures KeepsLast(s, Step(s, e))
  {
    ReachedInv(es, s, env);
    hide Reached, Inv, Created, Destroyed, KeepsLast, FreshObject;
    if e.CreatedEvent? {
      FreshId(s, env, e.p);
      InvObjects(s, env);
      InvForest(s, env);
      CreatedKeepsLast(s, env, e.ts, e.p, e.pick);
    } else if e.DestroyedEvent? {
      DestroyedKeepsLast(s, e.ts, e.id, e.pick);
    } else if e.EtwSizeEvent? {
      SizeKeepsLast(s, env, e);
    } else if e.EtwGroupEvent? {
      GroupKeepsLast(s, env, e);
    } else if e.EtwAddressEvent? {
      AddressKeepsLast(s, env, e);
    } else {
      QuietKeepsLast(s, e);
    }
  }
}
