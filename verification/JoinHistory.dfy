// What the launcher remembers of destroyed objects: a window in time per address, pruned through one global queue.

module JoinHistory {
  import opened Wire
  import opened Timeline
  import opened ChildWatch
  import opened JoinState
  import opened JoinSteps
  import opened JoinInvariants
  import opened JoinQueue
  import opened JoinPipe
  import opened JoinAccounts
  import opened JoinLog
  import opened JoinLedger
  import opened JoinRuns
  import opened JoinTheorems
  import Etw

  // ---- Only creations, deaths and ticks touch the past ------------------------------------------

  ghost predicate SamePast(s: State, t: State) {
    && t.ix.dead == s.ix.dead && t.ix.hist == s.ix.hist && t.ix.ptrToId == s.ix.ptrToId
    && t.live.Keys == s.live.Keys
    && forall i | i in s.live ::
         SameStatic(s.live[i], t.live[i]) && t.live[i].prevDestroy == s.live[i].prevDestroy
  }

  lemma BindPast(s: State, key: nat, id: nat, ts: nat, pick: Order)
    requires key in s.etw && id in s.live
    ensures SamePast(s, Bind(s, key, id, ts, pick))
  {
  }

  lemma TryBindPast(s: State, key: nat, ts: nat, nowMs: nat, pick: Order)
    ensures SamePast(s, TryBind(s, key, ts, nowMs, pick))
  {
    if key in s.etw && !Settled(s.etw[key]) && HasLiveMatch(s, s.etw[key]) {
      hide Bind;
      BindPast(s, key, s.ix.ptrToId[s.etw[key].address], ts, pick);
    }
  }

  lemma ApplyGroupPast(s: State, key: nat, g: MemLoc, ts: nat, pick: Order)
    requires key in s.etw
    ensures SamePast(s, ApplyGroup(s, key, g, ts, pick))
  {
    hide Relocate;
  }

  lemma ApplySizePast(s: State, key: nat, size: nat, ts: nat)
    requires key in s.etw
    ensures var t := ApplySize(s, key, size, ts); SamePast(s, t) && t.etw.Keys == s.etw.Keys
  {
    hide SubDriver, AddDriver;
  }

  lemma FoldPast(s: State, key: nat, into: nat, pick: Order)
    requires key in s.etw && into in s.etw && key != into
    ensures SamePast(s, Fold(s, key, into, pick))
  {
    var c, e := CountDuplicate(s), s.etw[key];
    ApplySizePast(c, into, e.size, e.createdTs);
    hide ApplySize, ApplyGroup, SubDriver;
    var t := if e.size != 0 then ApplySize(c, into, e.size, e.createdTs) else c;
    ApplyGroupPast(t, into, e.group, e.createdTs, pick);
  }

  lemma EtwAddressPast(s: State, lib: nat, addr: nat, nowMs: nat, pick: Order)
    ensures SamePast(s, EtwAddress(s, lib, addr, nowMs, pick))
  {
    if addr != 0 && Known(s, lib) && s.etw[s.ix.alias[lib]].address == 0 {
      hide TryBind, Fold;
      var key := s.ix.alias[lib];
      var ts := s.etw[key].createdTs;
      if IsReReport(s, key, addr) {
        FoldPast(s, key, s.ix.byAddr[addr], pick);
        TryBindPast(Fold(s, key, s.ix.byAddr[addr], pick), s.ix.byAddr[addr], ts, nowMs, pick);
      } else {
        TryBindPast(SetAddress(s, key, addr), key, ts, nowMs, pick);
      }
    }
  }

  lemma EtwDestroyedPast(s: State, abs: int, lib: nat)
    ensures SamePast(s, EtwDestroyed(s, abs, lib))
  {
    hide SubDriver, ConvTs;
  }

  lemma FilteredPast(s: State, ts: nat, p: Probe)
    ensures var t := Filtered(s, ts, p); SamePast(s, t) && t.etw == s.etw && t.ix == s.ix && t.live == s.live
  {
    hide PollChild;
  }

  lemma EtwGroupPast(s: State, abs: int, lib: nat, group: Etw.Group, p: Probe, pick: Order)
    ensures SamePast(s, EtwGroup(s, abs, lib, group, p, pick))
  {
    var ts := ConvTs(s.tb, abs);
    FilteredPast(s, ts, p);
    hide ApplyGroup, ConvTs, Filtered, FromGroup, Ignored;
    var t := Filtered(s, ts, p);
    var u := t.(stats := t.stats.(groupChanges := t.stats.groupChanges + 1));
    if Known(u, lib) {
      ApplyGroupPast(u, u.ix.alias[lib], FromGroup(group), ts, pick);
    }
  }

  predicate TouchesPast(e: Event) {
    e.CreatedEvent? || e.DestroyedEvent? || e.TickEvent?
  }

  lemma EventKeepsPast(s: State, e: Event)
    requires !TouchesPast(e)
    ensures SamePast(s, Step(s, e))
  {
    hide EtwAddress, EtwDestroyed, EtwGroup, ApplySize, PollChild, ConvTs, AddDriver, EtwResidency, EtwCounter;
    match e
    case EtwAddressEvent(lib, addr, nowMs, pick) => EtwAddressPast(s, lib, addr, nowMs, pick);
    case EtwDestroyedEvent(abs, lib) => EtwDestroyedPast(s, abs, lib);
    case EtwSizeEvent(abs, lib, size) =>
      if Known(s, lib) { ApplySizePast(s, s.ix.alias[lib], size, ConvTs(s.tb, abs)); }
    case EtwGroupEvent(abs, lib, group, p, pick) => EtwGroupPast(s, abs, lib, group, p, pick);
    case EtwResidencyEvent(abs, lib, op, p) => ResidencyIsIdle(s, abs, lib, op, p);
    case EtwCounterEvent(abs, counter, kind, mb, p) => CounterIsIdle(s, abs, counter, kind, mb, p);
    case _ =>
  }

  // A creation changes only the new object and the index entry of its address.
  ghost predicate MovesIn(s: State, t: State, p: CreatedPayload) {
    && t.ix.dead == s.ix.dead && t.ix.hist == s.ix.hist
    && t.ix.ptrToId == (if p.ptr != 0 then s.ix.ptrToId[p.ptr := p.id] else s.ix.ptrToId)
    && t.live.Keys == s.live.Keys + {p.id}
    && SameStatic(NewObject(p), t.live[p.id])
    && t.live[p.id].prevDestroy == LastAt(s, p.ptr)
    && forall i | i in s.live ::
         SameStatic(s.live[i], t.live[i]) && t.live[i].prevDestroy == s.live[i].prevDestroy
  }

  lemma CreatedPast(s: State, ts: nat, p: CreatedPayload, pick: Order)
    requires p.id !in s.live
    ensures MovesIn(s, Created(s, ts, p, pick), p)
  {
    EnteredEnters(s, ts, p);
    EnterPrev(s, ts, p);
    var t := Enter(Admit(s, p), p.id, ts);
    assert MovesIn(s, t, p) by { hide Enter, LastAt; }
    hide Enter, Bind, MovesIn, CanBind;
    var o := t.live[p.id];
    if o.ptr != 0 && o.ptr in t.ix.byAddr && t.ix.byAddr[o.ptr] in t.etw && CanBind(t.etw[t.ix.byAddr[o.ptr]], o) {
      BindPast(t, t.ix.byAddr[o.ptr], p.id, ts, pick);
      MovesInOn(s, t, Bind(t, t.ix.byAddr[o.ptr], p.id, ts, pick), p);
    }
  }

  lemma MovesInOn(s: State, t: State, u: State, p: CreatedPayload)
    requires MovesIn(s, t, p) && SamePast(t, u)
    ensures MovesIn(s, u, p)
  {
    hide LastAt;
  }

  // When the last remembered occupant of the address died; 0 if none is remembered.
  function LastAt(s: State, a: nat): nat {
    var d := DeadAt(s, a);
    if a == 0 || d == [] then 0 else d[|d| - 1].destroyed
  }

  lemma EnterPrev(s: State, ts: nat, p: CreatedPayload)
    requires p.id !in s.live
    ensures var t := Enter(Admit(s, p), p.id, ts); p.id in t.live && t.live[p.id].prevDestroy == LastAt(s, p.ptr)
  {
    hide FirstLoc, AddTotals;
  }

  // A death is appended to the address's list and to the queue.
  lemma DestroyedPast(s: State, env: Issued, ts: nat, id: nat, pick: Order)
    requires Objects(s, env) && Binding(s) && id in s.live
    ensures var t := Destroyed(s, ts, id, pick);
            && t.ix.dead == Bury(s, id, ts).ix.dead && t.ix.hist == Bury(s, id, ts).ix.hist
            && Leaves(s, t, id)
  {
    hide Destroyed, Leaves, Bury, Objects, Binding;
    DestroyedLeaves(s, env, id, ts, pick);
    DestroyedBuries(s, ts, id, pick);
  }

  lemma DestroyedBuries(s: State, ts: nat, id: nat, pick: Order)
    requires id in s.live
    ensures var t := Destroyed(s, ts, id, pick);
            t.ix.dead == Bury(s, id, ts).ix.dead && t.ix.hist == Bury(s, id, ts).ix.hist
  {
    DetachBuries(s, ts, id);
    hide Detach, SubTotals, FallBackEach, Bury;
  }

  lemma DetachBuries(s: State, ts: nat, id: nat)
    requires id in s.live
    ensures var t := Detach(s, id, ts);
            id in t.live && t.ix.dead == Bury(s, id, ts).ix.dead && t.ix.hist == Bury(s, id, ts).ix.hist
  {
    hide SubLoc;
  }

  // ---- The window -------------------------------------------------------------------------------

  // The occupants that died at h or later.
  function Recent(d: seq<DeadObj>, h: nat): seq<DeadObj> {
    if d == [] then [] else (if d[0].destroyed >= h then [d[0]] else []) + Recent(d[1..], h)
  }

  lemma {:induction false} RecentOnes(d: seq<DeadObj>, h: nat, x: DeadObj)
    ensures x in Recent(d, h) <==> x in d && x.destroyed >= h
  {
    if d != [] {
      RecentOnes(d[1..], h, x);
      assert d == [d[0]] + d[1..];
    }
  }

  function Remembered(ix: Indexes, a: nat): seq<DeadObj> {
    if a in ix.dead then ix.dead[a] else []
  }

  ghost predicate DeathsSorted(d: seq<DeadObj>) {
    forall i, j | 0 <= i < j < |d| :: d[i].destroyed <= d[j].destroyed
  }

  ghost predicate QueuedDeath(ix: Indexes, a: nat, t: nat) {
    (t, a) in ix.hist
  }

  ghost predicate Window(ix: Indexes, a: nat)
    requires a in ix.dead
  {
    && ix.dead[a] != [] && |ix.dead[a]| <= DEAD_PER_ADDRESS && DeathsSorted(ix.dead[a])
    && forall x | x in ix.dead[a] :: QueuedDeath(ix, a, x.destroyed)
  }

  ghost predicate History(ix: Indexes, last: nat) {
    && (forall i, j | 0 <= i < j < |ix.hist| :: ix.hist[i].0 <= ix.hist[j].0)
    && (forall i | 0 <= i < |ix.hist| :: ix.hist[i].0 <= last)
    && forall a | a in ix.dead :: Window(ix, a)
  }

  lemma BuryKeepsHistory(s: State, id: nat, ts: nat, last: nat)
    requires id in s.live && History(s.ix, last) && last <= ts
    ensures History(Bury(s, id, ts).ix, ts)
  {
    var a, t := s.live[id].ptr, Bury(s, id, ts);
    if a != 0 {
      forall b, u | QueuedDeath(s.ix, b, u) ensures QueuedDeath(t.ix, b, u) {}
      assert t.ix.hist[|s.ix.hist|] == (ts, a);
      forall b | b in t.ix.dead ensures Window(t.ix, b) {
        assert b in s.ix.dead ==> Window(s.ix, b);
        if b == a {
          forall x | x in t.ix.dead[a] ensures QueuedDeath(t.ix, a, x.destroyed) && x.destroyed <= ts {
            assert x in DeadAt(s, a) ==> QueuedDeath(s.ix, a, x.destroyed);
          }
          SortedAppend(DeadAt(s, a), DeadObj(id, s.live[id].kind, s.live[id].prevDestroy, ts), s.ix, a, last);
        }
      }
    }
  }

  lemma SortedAppend(d: seq<DeadObj>, x: DeadObj, ix: Indexes, a: nat, last: nat)
    requires DeathsSorted(d) && (forall y | y in d :: QueuedDeath(ix, a, y.destroyed))
    requires (forall i | 0 <= i < |ix.hist| :: ix.hist[i].0 <= last) && last <= x.destroyed
    ensures DeathsSorted(d + [x]) && DeathsSorted((d + [x])[1..])
  {
    forall i | 0 <= i < |d| ensures d[i].destroyed <= last {
      assert QueuedDeath(ix, a, d[i].destroyed);
    }
  }

  lemma {:induction false} DropOldIsRecent(d: seq<DeadObj>, h: nat)
    requires DeathsSorted(d)
    ensures DropOld(d, h) == Recent(d, h)
    ensures DeathsSorted(Recent(d, h)) && |Recent(d, h)| <= |d| && Recent(Recent(d, h), h) == Recent(d, h)
  {
    if d != [] {
      DropOldIsRecent(d[1..], h);
      if d[0].destroyed >= h {
        AllRecent(d, h);
      }
    }
  }

  lemma {:induction false} AllRecent(d: seq<DeadObj>, h: nat)
    requires forall i | 0 <= i < |d| :: d[i].destroyed >= h
    ensures Recent(d, h) == d
  {
    if d != [] {
      AllRecent(d[1..], h);
    }
  }

  // One round of the loop: the front of the queue goes, and its address loses what is too old.
  function PruneFront(ix: Indexes, h: nat): Indexes
    requires ix.hist != []
  {
    ix.(dead := DropAt(ix.dead, ix.hist[0].1, h), hist := ix.hist[1..])
  }

  lemma PruneFrontKeeps(ix: Indexes, h: nat, last: nat)
    requires ix.hist != [] && ix.hist[0].0 < h && History(ix, last)
    ensures History(PruneFront(ix, h), last)
  {
    var ix2 := PruneFront(ix, h);
    forall b | b in ix2.dead ensures Window(ix2, b) { PruneFrontWindow(ix, h, last, b); }
    hide Window, DropAt;
  }

  lemma PruneFrontRecent(ix: Indexes, h: nat, last: nat, a: nat)
    requires ix.hist != [] && History(ix, last)
    ensures Recent(Remembered(PruneFront(ix, h), a), h) == Recent(Remembered(ix, a), h)
  {
    hide DropOld, Recent;
    if a in ix.dead {
      assert Window(ix, a);
      DropOldIsRecent(ix.dead[a], h);
      hide History, Window, DeathsSorted;
      NothingRecent(h);
    }
  }

  lemma NothingRecent(h: nat)
    ensures Recent([], h) == []
  {
  }

  lemma PruneFrontWindow(ix: Indexes, h: nat, last: nat, b: nat)
    requires ix.hist != [] && ix.hist[0].0 < h && History(ix, last) && b in PruneFront(ix, h).dead
    ensures Window(PruneFront(ix, h), b)
  {
    var ix2, a := PruneFront(ix, h), ix.hist[0].1;
    assert Window(ix, b);
    DropOldIsRecent(ix.dead[b], h);
    hide DropOld, History;
    forall x | x in ix2.dead[b] ensures QueuedDeath(ix2, b, x.destroyed) {
      RecentOnes(ix.dead[b], h, x);
      assert QueuedDeath(ix, b, x.destroyed) && (b != a || x.destroyed >= h);
      var i :| 0 <= i < |ix.hist| && ix.hist[i] == (x.destroyed, b);
      assert i > 0 && ix2.hist[i - 1] == (x.destroyed, b);
    }
  }

  // When the queue's front is recent, everything is.
  lemma NothingOld(ix: Indexes, h: nat, last: nat, a: nat)
    requires History(ix, last) && (ix.hist != [] ==> ix.hist[0].0 >= h)
    ensures Recent(Remembered(ix, a), h) == Remembered(ix, a)
  {
    if a in ix.dead {
      assert Window(ix, a);
      forall i | 0 <= i < |ix.dead[a]| ensures ix.dead[a][i].destroyed >= h {
        assert QueuedDeath(ix, a, ix.dead[a][i].destroyed);
      }
      AllRecent(ix.dead[a], h);
    }
  }

  // Pruning keeps exactly the deaths at or after the horizon, although it is driven by the queue's front only.
  lemma {:induction false} PruneIsWindow(s: State, nowTs: nat, last: nat, a: nat)
    requires History(s.ix, last)
    ensures var t := Prune(s, nowTs);
            && History(t.ix, last)
            && Remembered(t.ix, a) == if nowTs > DESTROY_HISTORY_NS
                                      then Recent(Remembered(s.ix, a), nowTs - DESTROY_HISTORY_NS)
                                      else Remembered(s.ix, a)
    decreases |s.ix.hist|
  {
    hide History, Remembered, DropAt;
    if nowTs > DESTROY_HISTORY_NS {
      var h := nowTs - DESTROY_HISTORY_NS;
      if s.ix.hist != [] && s.ix.hist[0].0 < h {
        PruneFrontKeeps(s.ix, h, last);
        PruneFrontRecent(s.ix, h, last, a);
        assert Prune(s, nowTs) == Prune(s.(ix := PruneFront(s.ix, h)), nowTs);
        PruneIsWindow(s.(ix := PruneFront(s.ix, h)), nowTs, last, a);
      } else {
        NothingOld(s.ix, h, last, a);
      }
    }
  }

  // ---- Runs -------------------------------------------------------------------------------------

  function LastDeath(es: seq<Event>): nat {
    if es == [] then 0
    else if es[|es| - 1].DestroyedEvent? then es[|es| - 1].ts else LastDeath(es[..|es| - 1])
  }

  // Destroyed events carry nondecreasing stamps.
  predicate DeathsInOrder(es: seq<Event>) {
    es == [] ||
    (DeathsInOrder(es[..|es| - 1]) &&
     (es[|es| - 1].DestroyedEvent? ==> LastDeath(es[..|es| - 1]) <= es[|es| - 1].ts))
  }

  lemma StepKeepsHistory(s: State, env: Issued, e: Event, last: nat)
    requires Inv(s, env) && Allowed(s, env, e) && History(s.ix, last) && (e.DestroyedEvent? ==> last <= e.ts)
    ensures History(Step(s, e).ix, if e.DestroyedEvent? then e.ts else last)
  {
    hide History, Inv, Allowed, Created, Destroyed, Tick;
    if !TouchesPast(e) {
      EventKeepsPast(s, e);
      hide Step;
      HistoryReads(s.ix, Step(s, e).ix, last);
    } else {
      match e
      case CreatedEvent(ts, p, pick) =>
        CreatedKeepsHistory(s, env, e, last);
      case DestroyedEvent(ts, id, pick) =>
        DestroyedKeepsHistory(s, env, ts, id, pick, last);
      case TickEvent(nowMs, nowTs) =>
        ExpireQueueFrame(s, nowMs);
        HistoryReads(s.ix, ExpireQueue(s, nowMs).ix, last);
        PruneIsWindow(ExpireQueue(s, nowMs), nowTs, last, 0);
        TickByHalves(s, nowMs, nowTs);
        hide ExpireQueue, Prune;
    }
  }

  lemma TickByHalves(s: State, nowMs: nat, nowTs: nat)
    ensures Tick(s, nowMs, nowTs) == Prune(ExpireQueue(s, nowMs), nowTs)
  {
  }

  lemma CreatedKeepsHistory(s: State, env: Issued, e: Event, last: nat)
    requires Inv(s, env) && Allowed(s, env, e) && History(s.ix, last) && e.CreatedEvent?
    ensures History(Step(s, e).ix, last)
  {
    hide Inv, FreshObject, Created, History;
    FreshId(s, env, e.p);
    CreatedPast(s, e.ts, e.p, e.pick);
    HistoryReads(s.ix, Created(s, e.ts, e.p, e.pick).ix, last);
  }

  lemma DestroyedKeepsHistory(s: State, env: Issued, ts: nat, id: nat, pick: Order, last: nat)
    requires Inv(s, env) && History(s.ix, last) && last <= ts
    ensures History(Destroyed(s, ts, id, pick).ix, ts)
  {
    InvObjects(s, env);
    hide Inv, Destroyed, Bury, History, Objects, Binding;
    if id in s.live {
      DestroyedPast(s, env, ts, id, pick);
      BuryKeepsHistory(s, id, ts, last);
      HistoryReads(Bury(s, id, ts).ix, Destroyed(s, ts, id, pick).ix, ts);
    } else {
      NoDeath(s, ts, id, pick);
      HistoryLater(s.ix, last, ts);
    }
  }

  lemma FreshId(s: State, env: Issued, p: CreatedPayload)
    requires Inv(s, env) && FreshObject(s, env, p)
    ensures p.id !in s.live
  {
    hide LocInv, AccountsInv, Ledger, DriverSizes, LogInv, Records, Queue, Maximal, ParentsAreHeaps, PtrIndex,
         ChildIndex;
  }

  lemma InvObjects(s: State, env: Issued)
    requires Inv(s, env)
    ensures Objects(s, env) && Binding(s)
  {
    hide LocInv, AccountsInv, Ledger, DriverSizes, LogInv, Queue, Maximal;
  }

  lemma NoDeath(s: State, ts: nat, id: nat, pick: Order)
    requires id !in s.live
    ensures Destroyed(s, ts, id, pick) == s
  {
  }

  lemma HistoryReads(ix: Indexes, ix2: Indexes, last: nat)
    requires History(ix, last) && ix2.dead == ix.dead && ix2.hist == ix.hist
    ensures History(ix2, last)
  {
    forall a, t ensures QueuedDeath(ix, a, t) <==> QueuedDeath(ix2, a, t) {}
    forall a | a in ix2.dead ensures Window(ix2, a) { assert Window(ix, a); }
  }

  lemma HistoryLater(ix: Indexes, last: nat, last2: nat)
    requires History(ix, last) && last <= last2
    ensures History(ix, last2)
  {
  }

  lemma {:induction false} RunKeepsHistory(es: seq<Event>, s: State, env: Issued)
    requires Reached(es, s, env) && DeathsInOrder(es)
    ensures History(s.ix, LastDeath(es))
  {
    hide Inv, Step, Allowed, Next, History;
    if es != [] {
      var before := es[..|es| - 1];
      var s0, env0 := Run(INITIAL, before), Issuing(INITIAL, NOTHING_ISSUED, before);
      RunKeepsHistory(before, s0, env0);
      ReachedInv(before, s0, env0);
      StepKeepsHistory(s0, env0, es[|es| - 1], LastDeath(before));
    } else {
      InitialHistory();
    }
  }

  lemma InitialHistory()
    ensures History(INITIAL.ix, 0)
  {
  }

  // After a tick whose clock is past the span, each address has exactly its occupants that died within the span.
  lemma TickLeavesWindow(es: seq<Event>, s: State, env: Issued, nowMs: nat, nowTs: nat, a: nat)
    requires Reached(es, s, env) && DeathsInOrder(es) && nowTs > 10_000_000_000
    ensures DeadAt(Tick(s, nowMs, nowTs), a) == Recent(DeadAt(s, a), nowTs - 10_000_000_000)
  {
    RunKeepsHistory(es, s, env);
    ExpireQueueFrame(s, nowMs);
    hide Reached, ExpireQueue, Prune, History;
    HistoryReads(s.ix, ExpireQueue(s, nowMs).ix, LastDeath(es));
    PruneIsWindow(ExpireQueue(s, nowMs), nowTs, LastDeath(es), a);
  }

  // Each remembered list is non-empty, sorted by death and at most 1024 long.
  lemma HistoryIsBounded(es: seq<Event>, s: State, env: Issued, a: nat)
    requires Reached(es, s, env) && DeathsInOrder(es) && a in s.ix.dead
    ensures 1 <= |s.ix.dead[a]| <= 1024 && DeathsSorted(s.ix.dead[a])
  {
    RunKeepsHistory(es, s, env);
    hide Reached;
    assert Window(s.ix, a);
  }
}
