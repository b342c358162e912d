// Who a library object is attributed to when its address was used by several objects one after the other.

module JoinAttribution {
  import opened Wire
  import opened JoinState
  import opened JoinSteps
  import opened JoinInvariants
  import opened JoinQueue
  import opened JoinPipe
  import opened JoinRuns
  import opened JoinTheorems
  import opened JoinHistory
  import opened SidecarLines
  import Etw

  // A tracked object that owned an address and died.
  datatype Tenant = Tenant(id: nat, kind: ObjectType, death: nat)

  // Everybody who ever died at address a, in the order of the pipe; nothing is forgotten here.
  ghost function Chronicle(es: seq<Event>, a: nat): seq<Tenant> {
    if es == [] then [] else
      Recorded(Chronicle(es[..|es| - 1], a), Run(INITIAL, es[..|es| - 1]), es[|es| - 1], a)
  }

  function Recorded(c: seq<Tenant>, s: State, e: Event, a: nat): seq<Tenant> {
    if e.DestroyedEvent? && e.id in s.live && s.live[e.id].ptr == a
    then c + [Tenant(e.id, s.live[e.id].kind, e.ts)] else c
  }

  // Owners of address a alternate: an object is created there only when nobody lives there.
  ghost predicate Alternates(es: seq<Event>, a: nat) {
    es == [] ||
    (var before, e := es[..|es| - 1], es[|es| - 1];
     Alternates(before, a) && (e.CreatedEvent? && e.p.ptr == a ==> Vacant(Run(INITIAL, before), a)))
  }

  ghost predicate Vacant(s: State, a: nat) {
    forall i | i in s.live :: s.live[i].ptr != a
  }

  // When the owner before the k-th one died.
  function PrevDeath(c: seq<Tenant>, k: nat): nat
    requires k <= |c|
  {
    if k == 0 then 0 else c[k - 1].death
  }

  ghost predicate Sorted(c: seq<Tenant>) {
    forall i, j | 0 <= i < j < |c| :: c[i].death <= c[j].death
  }

  // ---- The launcher's memory against the chronicle ----------------------------------------------

  ghost predicate OneOwner(s: State, a: nat) {
    forall i | i in s.live && s.live[i].ptr == a :: a in s.ix.ptrToId && s.ix.ptrToId[a] == i
  }

  // x is the k-th owner; only the first one remembered may have forgotten whom it came after.
  ghost predicate IsTenant(x: DeadObj, c: seq<Tenant>, k: nat, first: bool)
    requires k < |c|
  {
    && x.id == c[k].id && x.kind == c[k].kind && x.destroyed == c[k].death
    && (x.prevDestroy == PrevDeath(c, k) || (first && x.prevDestroy == 0))
  }

  // d is the end of c.
  ghost predicate Remembers(d: seq<DeadObj>, c: seq<Tenant>) {
    |d| <= |c| && forall k | 0 <= k < |d| :: IsTenant(d[k], c, |c| - |d| + k, k == 0)
  }

  ghost predicate SinceLast(s: State, a: nat, c: seq<Tenant>) {
    forall i | i in s.live && s.live[i].ptr == a ::
      s.live[i].prevDestroy == PrevDeath(c, |c|) || (s.live[i].prevDestroy == 0 && DeadAt(s, a) == [])
  }

  // The launcher knows the latest owners of the address and their intervals, and the living one.
  ghost predicate Tenancy(s: State, a: nat, c: seq<Tenant>) {
    OneOwner(s, a) && Remembers(DeadAt(s, a), c) && SinceLast(s, a, c)
  }

  lemma SamePastTenancy(s: State, t: State, a: nat, c: seq<Tenant>)
    requires Tenancy(s, a, c) && SamePast(s, t)
    ensures Tenancy(t, a, c)
  {
    assert DeadAt(t, a) == DeadAt(s, a);
  }

  lemma MovesInOwner(s: State, t: State, p: CreatedPayload, a: nat)
    requires OneOwner(s, a) && p.id !in s.live && a != 0 && (p.ptr == a ==> Vacant(s, a)) && MovesIn(s, t, p)
    ensures OneOwner(t, a) && DeadAt(t, a) == DeadAt(s, a)
  {
  }

  lemma MovesInSince(s: State, t: State, p: CreatedPayload, a: nat, c: seq<Tenant>)
    requires Remembers(DeadAt(s, a), c) && SinceLast(s, a, c)
    requires p.id !in s.live && a != 0 && (p.ptr == a ==> Vacant(s, a)) && MovesIn(s, t, p)
    ensures SinceLast(t, a, c)
  {
    LastRemembered(s, a, c);
    hide LastAt, PrevDeath, Remembers;
  }

  lemma CreatedTenancy(s: State, ts: nat, p: CreatedPayload, pick: Order, a: nat, c: seq<Tenant>)
    requires Tenancy(s, a, c) && p.id !in s.live && a != 0 && (p.ptr == a ==> Vacant(s, a))
    ensures Tenancy(Created(s, ts, p, pick), a, c)
  {
    CreatedPast(s, ts, p, pick);
    hide Created, Remembers, SinceLast, OneOwner, MovesIn, Vacant, DeadAt;
    var t := Created(s, ts, p, pick);
    MovesInOwner(s, t, p, a);
    MovesInSince(s, t, p, a, c);
  }

  lemma LastRemembered(s: State, a: nat, c: seq<Tenant>)
    requires Remembers(DeadAt(s, a), c) && a != 0
    ensures LastAt(s, a) == if DeadAt(s, a) == [] then 0 else PrevDeath(c, |c|)
  {
    var d := DeadAt(s, a);
    assert d != [] ==> IsTenant(d[|d| - 1], c, |c| - 1, |d| == 1);
  }

  lemma DestroyedTenancy(s: State, env: Issued, ts: nat, id: nat, pick: Order, a: nat, c: seq<Tenant>)
    requires Tenancy(s, a, c) && a != 0 && Objects(s, env) && Binding(s) && id in s.live
    ensures var c2 := if s.live[id].ptr == a then c + [Tenant(id, s.live[id].kind, ts)] else c;
            Tenancy(Destroyed(s, ts, id, pick), a, c2)
  {
    var t := Destroyed(s, ts, id, pick);
    DestroyedDead(s, env, ts, id, pick, a);
    DestroyedPast(s, env, ts, id, pick);
    hide Destroyed, Objects, Binding, DeadAt, PrevDeath, Leaves, Bury, Remembers;
    LeavesOwner(s, t, id, a);
    if s.live[id].ptr == a {
      RemembersMore(DeadAt(s, a), c, Tenant(id, s.live[id].kind, ts), s.live[id].prevDestroy);
    } else {
      LeavesSince(s, t, id, a, c);
    }
  }

  lemma LeavesOwner(s: State, t: State, id: nat, a: nat)
    requires id in s.live && Leaves(s, t, id) && OneOwner(s, a)
    ensures OneOwner(t, a) && (s.live[id].ptr == a ==> Vacant(t, a))
  {
  }

  lemma LeavesSince(s: State, t: State, id: nat, a: nat, c: seq<Tenant>)
    requires id in s.live && Leaves(s, t, id) && SinceLast(s, a, c) && DeadAt(t, a) == DeadAt(s, a)
    ensures SinceLast(t, a, c)
  {
    hide PrevDeath;
  }

  lemma DestroyedDead(s: State, env: Issued, ts: nat, id: nat, pick: Order, a: nat)
    requires Objects(s, env) && Binding(s) && id in s.live && a != 0
    ensures var o, t := s.live[id], Destroyed(s, ts, id, pick);
            if o.ptr != a then DeadAt(t, a) == DeadAt(s, a)
            else var d := DeadAt(s, a) + [DeadObj(id, o.kind, o.prevDestroy, ts)];
                 DeadAt(t, a) == if |d| > DEAD_PER_ADDRESS then d[1..] else d
  {
    DestroyedPast(s, env, ts, id, pick);
    DeadGrows(s, id, ts, a);
    assert DeadAt(Destroyed(s, ts, id, pick), a) == DeadAt(Bury(s, id, ts), a);
    hide Destroyed, Bury, Objects, Binding, DeadAt;
  }

  lemma DeadGrows(s: State, id: nat, ts: nat, a: nat)
    requires id in s.live && a != 0
    ensures var o, t := s.live[id], Bury(s, id, ts);
            if o.ptr != a then DeadAt(t, a) == DeadAt(s, a)
            else var d := DeadAt(s, a) + [DeadObj(id, o.kind, o.prevDestroy, ts)];
                 DeadAt(t, a) == if |d| > DEAD_PER_ADDRESS then d[1..] else d
  {
  }

  lemma RemembersMore(d: seq<DeadObj>, c: seq<Tenant>, x: Tenant, prev: nat)
    requires Remembers(d, c) && (prev == PrevDeath(c, |c|) || (prev == 0 && d == []))
    ensures var d2 := d + [DeadObj(x.id, x.kind, prev, x.death)];
            Remembers(d2, c + [x]) && Remembers(d2[1..], c + [x])
  {
    var d2, c2 := d + [DeadObj(x.id, x.kind, prev, x.death)], c + [x];
    forall k | 0 <= k < |d2| ensures IsTenant(d2[k], c2, |c2| - |d2| + k, k == 0) {
      assert k < |d| ==> IsTenant(d[k], c, |c| - |d| + k, k == 0);
    }
    RemembersLess(d2, c2, 1);
  }

  // What is forgotten is forgotten from the front.
  lemma RemembersLess(d: seq<DeadObj>, c: seq<Tenant>, n: nat)
    requires Remembers(d, c) && n <= |d|
    ensures Remembers(d[n..], c)
  {
    forall k | 0 <= k < |d| - n ensures IsTenant(d[n..][k], c, |c| - |d[n..]| + k, k == 0) {
      assert IsTenant(d[n + k], c, |c| - |d| + (n + k), n + k == 0);
    }
  }

  // Deaths before this are forgotten by a tick at nowTs.
  function HorizonAt(nowTs: nat): nat {
    if nowTs > 10_000_000_000 then nowTs - 10_000_000_000 else 0
  }

  // d2 is the end of d, and what d has before it died before h.
  ghost predicate Shortened(d: seq<DeadObj>, d2: seq<DeadObj>, h: nat) {
    |d2| <= |d| && d2 == d[|d| - |d2|..] && forall k | 0 <= k < |d| - |d2| :: d[k].destroyed < h
  }

  lemma {:induction false} DropOldShortens(d: seq<DeadObj>, h: nat)
    ensures Shortened(d, DropOld(d, h), h)
  {
    if d != [] && d[0].destroyed < h {
      DropOldShortens(d[1..], h);
      var d2 := DropOld(d, h);
      assert d[1..][|d| - 1 - |d2|..] == d[|d| - |d2|..];
      forall k | 0 <= k < |d| - |d2| ensures d[k].destroyed < h {
        assert k > 0 ==> d[k] == d[1..][k - 1];
      }
    }
  }

  lemma ShortenedTwice(d: seq<DeadObj>, d2: seq<DeadObj>, d3: seq<DeadObj>, h: nat)
    requires Shortened(d, d2, h) && Shortened(d2, d3, h)
    ensures Shortened(d, d3, h)
  {
    var n := |d| - |d2|;
    assert d2[|d2| - |d3|..] == d[|d| - |d3|..];
    forall k | 0 <= k < |d| - |d3| ensures d[k].destroyed < h {
      assert k >= n ==> d[k] == d2[k - n];
    }
  }

  // Pruning forgets entries but changes none.
  lemma {:induction false} PruneForgets(s: State, nowTs: nat, a: nat)
    ensures Shortened(DeadAt(s, a), DeadAt(Prune(s, nowTs), a), HorizonAt(nowTs))
    decreases |s.ix.hist|
  {
    hide DropAt, Shortened, DeadAt;
    if s.ix.hist != [] && nowTs > DESTROY_HISTORY_NS && s.ix.hist[0].0 < nowTs - DESTROY_HISTORY_NS {
      var h := nowTs - DESTROY_HISTORY_NS;
      var t := s.(ix := s.ix.(dead := DropAt(s.ix.dead, s.ix.hist[0].1, h), hist := s.ix.hist[1..]));
      FrontShortens(s, t, h, a);
      PruneForgets(t, nowTs, a);
      ShortenedTwice(DeadAt(s, a), DeadAt(t, a), DeadAt(Prune(t, nowTs), a), h);
    } else {
      NothingShortened(DeadAt(s, a), HorizonAt(nowTs));
    }
  }

  lemma FrontShortens(s: State, t: State, h: nat, a: nat)
    requires s.ix.hist != [] && t.ix.dead == DropAt(s.ix.dead, s.ix.hist[0].1, h)
    ensures Shortened(DeadAt(s, a), DeadAt(t, a), h)
  {
    hide DropOld, Shortened;
    DropOldShortens(DeadAt(s, a), h);
    NothingShortened(DeadAt(s, a), h);
  }

  lemma NothingShortened(d: seq<DeadObj>, h: nat)
    ensures Shortened(d, d, h)
  {
  }

  lemma TickShortens(s: State, nowMs: nat, nowTs: nat, a: nat)
    ensures Shortened(DeadAt(s, a), DeadAt(Tick(s, nowMs, nowTs), a), HorizonAt(nowTs))
  {
    ExpireQueueFrame(s, nowMs);
    var u := ExpireQueue(s, nowMs);
    PruneForgets(u, nowTs, a);
    hide ExpireQueue, Prune, Shortened;
    assert DeadAt(u, a) == DeadAt(s, a);
  }

  lemma TickTenancy(s: State, nowMs: nat, nowTs: nat, a: nat, c: seq<Tenant>)
    requires Tenancy(s, a, c)
    ensures Tenancy(Tick(s, nowMs, nowTs), a, c)
  {
    TickKeepsOwners(s, nowMs, nowTs);
    TickShortens(s, nowMs, nowTs, a);
    var t := Tick(s, nowMs, nowTs);
    hide Tick, Remembers, DeadAt, PrevDeath;
    RemembersLess(DeadAt(s, a), c, |DeadAt(s, a)| - |DeadAt(t, a)|);
    assert DeadAt(s, a) == [] ==> DeadAt(t, a) == [];
  }

  lemma TickKeepsOwners(s: State, nowMs: nat, nowTs: nat)
    ensures var t := Tick(s, nowMs, nowTs); t.live == s.live && t.ix.ptrToId == s.ix.ptrToId
  {
    ExpireQueueFrame(s, nowMs);
    PruneFrame(ExpireQueue(s, nowMs), nowTs);
    hide ExpireQueue, Prune;
  }

  lemma StepTenancy(s: State, env: Issued, e: Event, a: nat, c: seq<Tenant>)
    requires Inv(s, env) && Allowed(s, env, e) && Tenancy(s, a, c) && a != 0
    requires e.CreatedEvent? && e.p.ptr == a ==> Vacant(s, a)
    ensures Tenancy(Step(s, e), a, Recorded(c, s, e, a))
  {
    InvObjects(s, env);
    hide Inv, Created, Destroyed, Tick, Objects, Binding, Tenancy, Vacant, Hello, Poll, EtwCreated, EtwAddress,
         EtwDestroyed, EtwSize, EtwGroup, EtwResidency, EtwCounter;
    if !TouchesPast(e) {
      EventKeepsPast(s, e);
      hide Step;
      SamePastTenancy(s, Step(s, e), a, c);
    } else {
      match e
      case CreatedEvent(ts, p, pick) =>
        FreshId(s, env, p);
        CreatedTenancy(s, ts, p, pick, a, c);
      case DestroyedEvent(ts, id, pick) =>
        if id in s.live {
          DestroyedTenancy(s, env, ts, id, pick, a, c);
        } else {
          NoDeath(s, ts, id, pick);
        }
      case TickEvent(nowMs, nowTs) => TickTenancy(s, nowMs, nowTs, a, c);
    }
  }

  lemma {:induction false} RunTenancy(es: seq<Event>, s: State, env: Issued, a: nat)
    requires Reached(es, s, env) && Alternates(es, a) && a != 0
    ensures Tenancy(s, a, Chronicle(es, a))
  {
    hide Inv, Step, Allowed, Next, Tenancy, Vacant;
    if es != [] {
      var before := es[..|es| - 1];
      var s0, env0 := Run(INITIAL, before), Issuing(INITIAL, NOTHING_ISSUED, before);
      RunTenancy(before, s0, env0, a);
      ReachedInv(before, s0, env0);
      StepTenancy(s0, env0, es[|es| - 1], a, Chronicle(before, a));
    } else {
      InitialTenancy(a);
    }
  }

  lemma InitialTenancy(a: nat)
    ensures Tenancy(INITIAL, a, [])
  {
  }

  // ---- What was forgotten -----------------------------------------------------------------------

  // The latest horizon of any tick so far.
  function Horizon(es: seq<Event>): nat {
    if es == [] then 0 else
      var h, e := Horizon(es[..|es| - 1]), es[|es| - 1];
      if e.TickEvent? && HorizonAt(e.nowTs) > h then HorizonAt(e.nowTs) else h
  }

  // Whoever is forgotten died before h or had as many successors as an address may have.
  ghost predicate Forgets(d: seq<DeadObj>, c: seq<Tenant>, h: nat) {
    forall k | 0 <= k < |c| - |d| :: c[k].death < h || k + 1024 < |c|
  }

  lemma ForgetsMore(d: seq<DeadObj>, d2: seq<DeadObj>, c: seq<Tenant>, h: nat, u: nat)
    requires Remembers(d, c) && Forgets(d, c, h) && Shortened(d, d2, u)
    ensures Forgets(d2, c, if u > h then u else h)
  {
    forall k | 0 <= k < |c| - |d2| ensures c[k].death < (if u > h then u else h) || k + 1024 < |c| {
      if k >= |c| - |d| {
        assert IsTenant(d[k - (|c| - |d|)], c, k, k == |c| - |d|);
      }
    }
  }

  lemma DestroyedForgets(s: State, env: Issued, ts: nat, id: nat, pick: Order, a: nat, c: seq<Tenant>, h: nat)
    requires Forgets(DeadAt(s, a), c, h) && a != 0 && Objects(s, env) && Binding(s) && id in s.live
    ensures var c2 := if s.live[id].ptr == a then c + [Tenant(id, s.live[id].kind, ts)] else c;
            Forgets(DeadAt(Destroyed(s, ts, id, pick), a), c2, h)
  {
    DestroyedDead(s, env, ts, id, pick, a);
    hide Destroyed, Objects, Binding, DeadAt;
  }

  lemma QuietDead(s: State, env: Issued, e: Event, a: nat)
    requires Inv(s, env) && Allowed(s, env, e) && !e.DestroyedEvent? && !e.TickEvent?
    ensures DeadAt(Step(s, e), a) == DeadAt(s, a)
  {
    if e.CreatedEvent? {
      FreshId(s, env, e.p);
      CreatedPast(s, e.ts, e.p, e.pick);
      hide Inv, FreshObject, Created;
    } else {
      EventKeepsPast(s, e);
      hide Inv, Allowed, Step;
    }
  }

  lemma StepForgets(s: State, env: Issued, e: Event, a: nat, c: seq<Tenant>, h: nat)
    requires Inv(s, env) && Allowed(s, env, e) && Tenancy(s, a, c) && Forgets(DeadAt(s, a), c, h) && a != 0
    ensures Forgets(DeadAt(Step(s, e), a), Recorded(c, s, e, a),
                    if e.TickEvent? && HorizonAt(e.nowTs) > h then HorizonAt(e.nowTs) else h)
  {
    hide Inv, Allowed, Forgets, Remembers, HorizonAt, OneOwner, SinceLast;
    if e.DestroyedEvent? {
      DeathForgets(s, env, e, a, c, h);
    } else if e.TickEvent? {
      TickForgets(s, e, a, c, h);
    } else {
      QuietDead(s, env, e, a);
      hide Step, DeadAt;
    }
  }

  lemma DeathForgets(s: State, env: Issued, e: Event, a: nat, c: seq<Tenant>, h: nat)
    requires Inv(s, env) && Forgets(DeadAt(s, a), c, h) && a != 0 && e.DestroyedEvent?
    ensures Forgets(DeadAt(Step(s, e), a), Recorded(c, s, e, a), h)
  {
    hide Inv, Destroyed, Objects, Binding, Forgets, DeadAt;
    InvObjects(s, env);
    if e.id in s.live {
      DestroyedForgets(s, env, e.ts, e.id, e.pick, a, c, h);
    } else {
      NoDeath(s, e.ts, e.id, e.pick);
    }
  }

  lemma TickForgets(s: State, e: Event, a: nat, c: seq<Tenant>, h: nat)
    requires Remembers(DeadAt(s, a), c) && Forgets(DeadAt(s, a), c, h) && e.TickEvent?
    ensures Forgets(DeadAt(Step(s, e), a), c, if HorizonAt(e.nowTs) > h then HorizonAt(e.nowTs) else h)
  {
    hide Tick, Forgets, Remembers, HorizonAt, DeadAt, Shortened;
    TickShortens(s, e.nowMs, e.nowTs, a);
    ForgetsMore(DeadAt(s, a), DeadAt(Tick(s, e.nowMs, e.nowTs), a), c, h, HorizonAt(e.nowTs));
  }

  lemma {:induction false} RunForgets(es: seq<Event>, s: State, env: Issued, a: nat)
    requires Reached(es, s, env) && Alternates(es, a) && a != 0
    ensures Forgets(DeadAt(s, a), Chronicle(es, a), Horizon(es))
  {
    hide Inv, Step, Allowed, Next, Tenancy, Vacant, Forgets, HorizonAt;
    if es != [] {
      var before := es[..|es| - 1];
      var s0, env0 := Run(INITIAL, before), Issuing(INITIAL, NOTHING_ISSUED, before);
      RunForgets(before, s0, env0, a);
      RunTenancy(before, s0, env0, a);
      ReachedInv(before, s0, env0);
      StepForgets(s0, env0, es[|es| - 1], a, Chronicle(before, a), Horizon(before));
    } else {
      NothingForgotten(a);
    }
  }

  lemma NothingForgotten(a: nat)
    ensures Forgets(DeadAt(INITIAL, a), [], 0)
  {
  }

  lemma {:induction false} ChronicleSorted(es: seq<Event>, a: nat)
    requires DeathsInOrder(es)
    ensures Sorted(Chronicle(es, a)) && forall x | x in Chronicle(es, a) :: x.death <= LastDeath(es)
  {
    if es != [] {
      hide Run;
      ChronicleSorted(es[..|es| - 1], a);
    }
  }

  // ---- The owner at a given time ----------------------------------------------------------------

  // How many owners had died before time t: the index of the owner at t; |c| is the one that has not died.
  function Owner(c: seq<Tenant>, t: nat): nat {
    if c == [] then 0 else if c[0].death < t then 1 + Owner(c[1..], t) else 0
  }

  // t lies in the k-th interval between deaths.
  predicate InInterval(c: seq<Tenant>, t: nat, k: nat) {
    k <= |c| && (k > 0 ==> c[k - 1].death < t) && (k < |c| ==> t <= c[k].death)
  }

  lemma {:induction false} OwnerIsUnique(c: seq<Tenant>, t: nat, k: nat)
    requires Sorted(c)
    ensures InInterval(c, t, k) <==> k == Owner(c, t)
  {
    if c != [] && k > 0 {
      OwnerIsUnique(c[1..], t, k - 1);
      assert 1 < k <= |c| ==> c[k - 1] == c[1..][k - 2];
      assert k < |c| ==> c[k] == c[1..][k - 1];
    }
  }

  // Deaths after t make no difference: it is enough that everything up to t was delivered.
  lemma {:induction false} OwnerNeedsOnlyThePast(full: seq<Tenant>, n: nat, t: nat)
    requires n <= |full| && Sorted(full) && forall k | n <= k < |full| :: full[k].death >= t
    ensures Owner(full[..n], t) == Owner(full, t)
  {
    OwnerIsUnique(full, t, Owner(full[..n], t));
    OwnerIsUnique(full[..n], t, Owner(full[..n], t));
    forall i, j | 0 <= i < j < n ensures full[..n][i].death <= full[..n][j].death {}
  }

  // The library and the pipe name the same type; the library's other types have no counterpart.
  predicate SameType(e: Etw.ObjType, o: ObjectType) {
    || (e.Resource? && o.Resource?) || (e.Heap? && o.Heap?) || (e.PipelineState? && o.PipelineState?)
    || (e.CommandAllocator? && o.CommandAllocator?) || (e.DescriptorHeap? && o.DescriptorHeap?)
  }

  // The record has an address, no object yet, and a type that the pipe knows too.
  predicate Attributable(e: EtwObj) {
    && e.address != 0 && e.boundId == 0 && e.orphanTs == 0
    && (e.kind.Resource? || e.kind.Heap? || e.kind.PipelineState? || e.kind.CommandAllocator? || e.kind.DescriptorHeap?)
  }

  lemma TypesByName()
    ensures forall e, o :: Compatible(e, o) <==> SameType(e, o)
    ensures forall e :: Attributable(e) <==> !Settled(e)
  {
  }

  // t is more than the slack away from every death.
  ghost predicate Apart(c: seq<Tenant>, t: nat) {
    forall k | 0 <= k < |c| :: t + 100_000 < c[k].death || c[k].death + 100_000 < t
  }

  // Every owner the launcher has forgotten died more than the slack before t.
  ghost predicate LongForgotten(d: seq<DeadObj>, c: seq<Tenant>, t: nat) {
    forall k | 0 <= k < |c| - |d| :: c[k].death + 100_000 < t
  }

  // The slack cannot make a wrong owner match, nor the right one fail.
  lemma {:induction false} OnlyOwnerMatches(e: EtwObj, d: seq<DeadObj>, c: seq<Tenant>, j: nat)
    requires Remembers(d, c) && Sorted(c) && Apart(c, e.createdTs) && LongForgotten(d, c, e.createdTs) && j < |d|
    ensures var k := |c| - |d| + j;
            MatchesDead(e, d[j]) <==> k == Owner(c, e.createdTs) && SameType(e.kind, c[k].kind)
  {
    var k := |c| - |d| + j;
    assert IsTenant(d[j], c, k, j == 0);
    OwnerIsUnique(c, e.createdTs, k);
    TypesByName();
  }

  lemma {:induction false} OwnerIsRemembered(d: seq<DeadObj>, c: seq<Tenant>, t: nat)
    requires Remembers(d, c) && Sorted(c) && LongForgotten(d, c, t)
    ensures |c| - |d| <= Owner(c, t) <= |c|
  {
    OwnerIsUnique(c, t, Owner(c, t));
  }

  lemma FirstMatchIsOwner(e: EtwObj, d: seq<DeadObj>, c: seq<Tenant>)
    requires Remembers(d, c) && Sorted(c) && Apart(c, e.createdTs) && LongForgotten(d, c, e.createdTs)
    ensures var k, n := Owner(c, e.createdTs), |c| - |d|;
            && n <= k <= |c|
            && FirstMatch(e, d) == if k < |c| && SameType(e.kind, c[k].kind) then k - n else |d|
  {
    var k, n, i := Owner(c, e.createdTs), |c| - |d|, FirstMatch(e, d);
    OwnerIsRemembered(d, c, e.createdTs);
    hide Remembers, Sorted, Apart, LongForgotten, Owner, SameType;
    if i < |d| { OnlyOwnerMatches(e, d, c, i); }
    if k < |c| { OnlyOwnerMatches(e, d, c, k - n); }
  }

  lemma LiveIsOwner(s: State, e: EtwObj, a: nat, c: seq<Tenant>, i: nat)
    requires SinceLast(s, a, c) && Sorted(c) && Apart(c, e.createdTs) && LongForgotten(DeadAt(s, a), c, e.createdTs)
    requires i in s.live && s.live[i].ptr == a
    ensures e.createdTs + BIND_SLACK_NS >= s.live[i].prevDestroy <==> Owner(c, e.createdTs) == |c|
  {
    OwnerIsUnique(c, e.createdTs, |c|);
    hide Owner;
  }

  // ---- Attribution ------------------------------------------------------------------------------

  // What one attempt to attribute the record `key` did.
  ghost predicate ToLive(s: State, t: State, key: nat, id: nat, ts: nat) {
    && key in s.etw && key in t.etw && t.etw[key].boundId == id && id in t.live && t.live[id].etwKey == key
    && |s.log| < |t.log| && t.log[..|s.log|] == s.log
    && t.log[|s.log|] == BindLine(ts, id, key, s.etw[key].kind, t.live[id].ptr, false)
  }

  ghost predicate ToDead(s: State, t: State, key: nat, id: nat, ts: nat) {
    && key in s.etw && key in t.etw && t.live == s.live
    && t.etw[key].boundId == 0 && t.etw[key].orphanTs != 0
    && t.log == s.log + [BindLine(ts, id, key, s.etw[key].kind, s.etw[key].address, true)]
  }

  // It waits from now on, unless it did before or its time is over.
  ghost predicate ToNobody(s: State, t: State, key: nat, nowMs: nat) {
    && key in s.etw && key in t.etw && t.live == s.live && t.log == s.log
    && t.etw[key].boundId == 0 && t.etw[key].orphanTs == 0 && t.etw[key].expired == s.etw[key].expired
    && t.etw[key].pendingSince == if s.etw[key].pendingSince != 0 || s.etw[key].expired then s.etw[key].pendingSince
                                  else if nowMs == 0 then 1 else nowMs
  }

  lemma BindSides(s: State, key: nat, id: nat, ts: nat, pick: Order)
    requires key in s.etw && id in s.live
    ensures var t := Bind(s, key, id, ts, pick);
            && key in t.etw && t.etw[key].boundId == id && id in t.live && t.live[id].etwKey == key
            && t.live[id].ptr == s.live[id].ptr
  {
    hide Relocate, Displaced;
  }

  lemma BindIsToLive(s: State, key: nat, id: nat, ts: nat, pick: Order)
    requires key in s.etw && id in s.live
    ensures ToLive(s, Bind(s, key, id, ts, pick), key, id, ts)
  {
    BindSides(s, key, id, ts, pick);
    BindAppends(s, key, id, ts, pick);
    hide Bind;
    var l := BindLine(ts, id, key, s.etw[key].kind, s.live[id].ptr, false);
    assert Appends(s.log, s.log + [l]);
    AppendsTrans(s.log, s.log + [l], Bind(s, key, id, ts, pick).log, ts);
    assert (s.log + [l])[|s.log|] == l;
  }

  // The record went to the owner of its address at its creation, dead or alive, exactly if the types are compatible;
  // and to nobody else.
  ghost predicate Attributed(s: State, t: State, key: nat, c: seq<Tenant>, ts: nat, nowMs: nat)
    requires key in s.etw
  {
    var e := s.etw[key];
    var k := Owner(c, e.createdTs);
    && k <= |c|
    && if k < |c| then
         if SameType(e.kind, c[k].kind) then ToDead(s, t, key, c[k].id, ts) else ToNobody(s, t, key, nowMs)
       else if e.address in s.ix.ptrToId && s.ix.ptrToId[e.address] in s.live
               && SameType(e.kind, s.live[s.ix.ptrToId[e.address]].kind)
       then ToLive(s, t, key, s.ix.ptrToId[e.address], ts)
       else ToNobody(s, t, key, nowMs)
  }

  // The stamp is more than the slack away from every death, and after all that were forgotten.
  ghost predicate Clear(s: State, a: nat, c: seq<Tenant>, t: nat) {
    Apart(c, t) && LongForgotten(DeadAt(s, a), c, t)
  }

  lemma AttributionIsRight(es: seq<Event>, s: State, env: Issued, key: nat, ts: nat, nowMs: nat, pick: Order)
    requires Reached(es, s, env) && key in s.etw && Attributable(s.etw[key])
    requires var a := s.etw[key].address;
             Alternates(es, a) && DeathsInOrder(es) && Clear(s, a, Chronicle(es, a), s.etw[key].createdTs)
    ensures Attributed(s, TryBind(s, key, ts, nowMs, pick), key, Chronicle(es, s.etw[key].address), ts, nowMs)
  {
    var a := s.etw[key].address;
    RunTenancy(es, s, env, a);
    ChronicleSorted(es, a);
    ReachedInv(es, s, env);
    InvObjects(s, env);
    hide Reached, Inv, Binding, Chronicle, Attributed, Objects, Tenancy, Sorted, Clear, TryBind;
    StateAttribution(s, env, key, ts, nowMs, pick, Chronicle(es, a));
  }

  lemma StateAttribution(s: State, env: Issued, key: nat, ts: nat, nowMs: nat, pick: Order, c: seq<Tenant>)
    requires Objects(s, env) && key in s.etw && Attributable(s.etw[key])
    requires Tenancy(s, s.etw[key].address, c) && Sorted(c) && Clear(s, s.etw[key].address, c, s.etw[key].createdTs)
    ensures Attributed(s, TryBind(s, key, ts, nowMs, pick), key, c, ts, nowMs)
  {
    hide Bind, FirstMatch, Owner, SameType, Apart, LongForgotten, Sorted, DeadAt, OneOwner, SinceLast, PrevDeath;
    var e := s.etw[key];
    var a := e.address;
    FirstMatchIsOwner(e, DeadAt(s, a), c);
    LiveMatchIsOwner(s, env, e, c);
    if HasLiveMatch(s, e) {
      BindIsToLive(s, key, s.ix.ptrToId[a], ts, pick);
    }
    TryBindCases(s, key, ts, nowMs, pick);
    OwnerDiedAs(s, e, c);
    hide TryBind, HasLiveMatch, ToLive, ToNobody, ToDead, Tenancy, Objects, Remembers;
  }

  lemma OwnerDiedAs(s: State, e: EtwObj, c: seq<Tenant>)
    requires Remembers(DeadAt(s, e.address), c)
    ensures forall i | 0 <= i < |DeadAt(s, e.address)| ::
              DeadAt(s, e.address)[i].id == c[|c| - |DeadAt(s, e.address)| + i].id
  {
    var d := DeadAt(s, e.address);
    forall i | 0 <= i < |d| ensures d[i].id == c[|c| - |d| + i].id {
      assert IsTenant(d[i], c, |c| - |d| + i, i == 0);
    }
  }

  lemma LiveMatchIsOwner(s: State, env: Issued, e: EtwObj, c: seq<Tenant>)
    requires Objects(s, env) && SinceLast(s, e.address, c) && Sorted(c) && Clear(s, e.address, c, e.createdTs)
    requires e.boundId == 0 && e.orphanTs == 0
    ensures HasLiveMatch(s, e) <==>
              e.address in s.ix.ptrToId && s.ix.ptrToId[e.address] in s.live &&
              SameType(e.kind, s.live[s.ix.ptrToId[e.address]].kind) && Owner(c, e.createdTs) == |c|
  {
    TypesByName();
    hide SameType, Compatible, Owner, Apart, LongForgotten, Sorted, SinceLast, DeadAt;
    if e.address in s.ix.ptrToId && s.ix.ptrToId[e.address] in s.live {
      LiveIsOwner(s, e, e.address, c, s.ix.ptrToId[e.address]);
    }
  }

  lemma TryBindCases(s: State, key: nat, ts: nat, nowMs: nat, pick: Order)
    requires key in s.etw && Attributable(s.etw[key])
    ensures var e := s.etw[key];
            var d := DeadAt(s, e.address);
            var t := TryBind(s, key, ts, nowMs, pick);
            && (HasLiveMatch(s, e) ==> t == Bind(s, key, s.ix.ptrToId[e.address], ts, pick))
            && (!HasLiveMatch(s, e) && FirstMatch(e, d) < |d| ==> ToDead(s, t, key, d[FirstMatch(e, d)].id, ts))
            && (!HasLiveMatch(s, e) && FirstMatch(e, d) == |d| ==> ToNobody(s, t, key, nowMs))
  {
    TypesByName();
    hide Bind, CanBind, FirstMatch, DeadAt;
  }

  // The other order of arrival: a record that waits at the address binds to the new object exactly if no owner
  // died after it was created.
  lemma NewcomerIsRight(es: seq<Event>, s: State, env: Issued, ts: nat, p: CreatedPayload, pick: Order)
    requires Reached(es, s, env) && FreshObject(s, env, p) && p.ptr != 0 && p.ptr in s.ix.byAddr
    requires Alternates(es, p.ptr) && DeathsInOrder(es) && Vacant(s, p.ptr)
    requires s.ix.byAddr[p.ptr] in s.etw
    requires var e := s.etw[s.ix.byAddr[p.ptr]]; e.boundId == 0 && e.orphanTs == 0
    requires Clear(s, p.ptr, Chronicle(es, p.ptr), s.etw[s.ix.byAddr[p.ptr]].createdTs)
    ensures var key := s.ix.byAddr[p.ptr];
            var t := Created(s, ts, p, pick);
            && key in t.etw
            && (t.etw[key].boundId == p.id <==>
                SameType(s.etw[key].kind, p.kind)
                && Owner(Chronicle(es, p.ptr), s.etw[key].createdTs) == |Chronicle(es, p.ptr)|)
  {
    var key, c := s.ix.byAddr[p.ptr], Chronicle(es, p.ptr);
    RunTenancy(es, s, env, p.ptr);
    ChronicleSorted(es, p.ptr);
    ReachedInv(es, s, env);
    hide Reached, Chronicle;
    FreshId(s, env, p);
    hide Inv, FreshObject;
    LastDecides(s, p.ptr, c, s.etw[key].createdTs);
    JoinsNewcomer(s, ts, p, pick);
  }

  lemma LastDecides(s: State, a: nat, c: seq<Tenant>, t: nat)
    requires Remembers(DeadAt(s, a), c) && Sorted(c) && Clear(s, a, c, t) && a != 0
    ensures t + BIND_SLACK_NS >= LastAt(s, a) <==> Owner(c, t) == |c|
  {
    OwnerIsUnique(c, t, |c|);
    LastRemembered(s, a, c);
    hide Owner, LastAt, Remembers;
  }

  lemma JoinsNewcomer(s: State, ts: nat, p: CreatedPayload, pick: Order)
    requires p.id !in s.live && p.ptr != 0 && p.ptr in s.ix.byAddr && s.ix.byAddr[p.ptr] in s.etw && p.id != 0
    requires var e := s.etw[s.ix.byAddr[p.ptr]]; e.boundId == 0 && e.orphanTs == 0
    ensures var key := s.ix.byAddr[p.ptr];
            var t := Created(s, ts, p, pick);
            && key in t.etw
            && (t.etw[key].boundId == p.id <==>
                SameType(s.etw[key].kind, p.kind) && s.etw[key].createdTs + BIND_SLACK_NS >= LastAt(s, p.ptr))
  {
    EnteredEnters(s, ts, p);
    EnterPrev(s, ts, p);
    TypesByName();
    var key, t := s.ix.byAddr[p.ptr], Enter(Admit(s, p), p.id, ts);
    hide Enter, Bind, LastAt, SameType, Compatible;
    BindSides(t, key, p.id, ts, pick);
  }

  // ---- On the clock -----------------------------------------------------------------------------

  // Created at or after the last tick's horizon and the slack, or before any tick had one; and if the address had more
  // owners than are kept, after those. Everything here is known when the record arrives.
  ghost predicate InMemory(es: seq<Event>, c: seq<Tenant>, t: nat) {
    && (Horizon(es) == 0 || Horizon(es) + 100_000 <= t)
    && (|c| > 1024 ==> c[|c| - 1025].death + 100_000 < t)
  }

  lemma InMemoryIsClear(es: seq<Event>, s: State, env: Issued, a: nat, t: nat)
    requires Reached(es, s, env) && Alternates(es, a) && DeathsInOrder(es) && a != 0
    requires InMemory(es, Chronicle(es, a), t)
    ensures LongForgotten(DeadAt(s, a), Chronicle(es, a), t)
  {
    hide Reached, Chronicle, Horizon, DeadAt, Alternates, DeathsInOrder, LongForgotten, Forgets, Sorted, LastDeath;
    RunForgets(es, s, env, a);
    ChronicleSorted(es, a);
    ForgetsLong(DeadAt(s, a), Chronicle(es, a), Horizon(es), t);
  }

  lemma ForgetsLong(d: seq<DeadObj>, c: seq<Tenant>, h: nat, t: nat)
    requires Forgets(d, c, h) && Sorted(c) && (h == 0 || h + 100_000 <= t)
    requires |c| > 1024 ==> c[|c| - 1025].death + 100_000 < t
    ensures LongForgotten(d, c, t)
  {
  }

  // Within the ten seconds the launcher remembers, attribution is right whatever happened at the address before.
  lemma AttributionOnTheClock(es: seq<Event>, s: State, env: Issued, key: nat, ts: nat, nowMs: nat, pick: Order)
    requires Reached(es, s, env) && key in s.etw && Attributable(s.etw[key])
    requires var e := s.etw[key];
             && Alternates(es, e.address) && DeathsInOrder(es)
             && Apart(Chronicle(es, e.address), e.createdTs) && InMemory(es, Chronicle(es, e.address), e.createdTs)
    ensures Attributed(s, TryBind(s, key, ts, nowMs, pick), key, Chronicle(es, s.etw[key].address), ts, nowMs)
  {
    hide Reached, Attributed, TryBind, Apart, InMemory, LongForgotten, Chronicle, Alternates, DeathsInOrder;
    InMemoryIsClear(es, s, env, s.etw[key].address, s.etw[key].createdTs);
    AttributionIsRight(es, s, env, key, ts, nowMs, pick);
  }
}
