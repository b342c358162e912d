// Exactly when a library object goes to its owner: when no other occupant that the launcher prefers matches too.

module JoinRivals {
  import opened Wire
  import opened JoinState
  import opened JoinSteps
  import opened JoinInvariants
  import opened JoinQueue
  import opened JoinPipe
  import opened JoinRuns
  import opened JoinTheorems
  import opened JoinHistory
  import opened JoinAttribution

  // ---- The dead are different objects -----------------------------------------------------------

  ghost predicate AllGone(s: State, env: Issued, c: seq<Tenant>) {
    && (forall k | 0 <= k < |c| :: c[k].id in env.ids && c[k].id !in s.live)
    && forall i, j | 0 <= i < j < |c| :: c[i].id != c[j].id
  }

  lemma StepAllGone(s: State, env: Issued, e: Event, a: nat, c: seq<Tenant>)
    requires Inv(s, env) && Allowed(s, env, e) && AllGone(s, env, c)
    ensures AllGone(Step(s, e), Next(s, env, e), Recorded(c, s, e, a))
  {
    hide AllGone, Recorded;
    if e.CreatedEvent? {
      FreshId(s, env, e.p);
      CreatedLives(s, e.ts, e.p, e.pick);
      hide Inv, Step;
      GoneStay(s, Step(s, e), env, Next(s, env, e), e, a, c);
    } else if e.DestroyedEvent? {
      InvObjects(s, env);
      hide Inv, Objects, Binding, Step;
      DestroyedLives(s, env, e);
      GoneMore(s, Step(s, e), env, e, a, c);
    } else {
      OthersLives(s, e);
      NextKeepsIds(s, env, e);
      hide Inv, Step, Allowed, Next;
      GoneStay(s, Step(s, e), env, Next(s, env, e), e, a, c);
    }
  }

  lemma NextKeepsIds(s: State, env: Issued, e: Event)
    requires !e.CreatedEvent?
    ensures Next(s, env, e).ids == env.ids
  {
  }

  lemma GoneStay(s: State, t: State, env: Issued, env2: Issued, e: Event, a: nat, c: seq<Tenant>)
    requires AllGone(s, env, c) && env.ids <= env2.ids && !e.DestroyedEvent?
    requires forall i | i in t.live :: i in s.live || i !in env.ids
    ensures AllGone(t, env2, Recorded(c, s, e, a))
  {
  }

  lemma GoneMore(s: State, t: State, env: Issued, e: Event, a: nat, c: seq<Tenant>)
    requires AllGone(s, env, c) && e.DestroyedEvent?
    requires t.live.Keys == s.live.Keys - {e.id} && (e.id in s.live ==> e.id in env.ids)
    ensures AllGone(t, env, Recorded(c, s, e, a))
  {
  }

  lemma CreatedLives(s: State, ts: nat, p: CreatedPayload, pick: Order)
    requires p.id !in s.live
    ensures Step(s, CreatedEvent(ts, p, pick)).live.Keys == s.live.Keys + {p.id}
  {
    CreatedPast(s, ts, p, pick);
    hide Created;
  }

  lemma DestroyedLives(s: State, env: Issued, e: Event)
    requires Objects(s, env) && Binding(s) && e.DestroyedEvent?
    ensures Step(s, e).live.Keys == s.live.Keys - {e.id} && (e.id in s.live ==> e.id in env.ids)
  {
    if e.id in s.live {
      DestroyedPast(s, env, e.ts, e.id, e.pick);
      hide Binding, Destroyed, Bury;
    } else {
      NoDeath(s, e.ts, e.id, e.pick);
      hide Binding, Destroyed, Objects;
    }
  }

  lemma OthersLives(s: State, e: Event)
    requires !e.CreatedEvent? && !e.DestroyedEvent?
    ensures Step(s, e).live.Keys == s.live.Keys
  {
    if e.TickEvent? {
      ExpireQueueFrame(s, e.nowMs);
      PruneFrame(ExpireQueue(s, e.nowMs), e.nowTs);
      hide ExpireQueue, Prune;
    } else {
      EventKeepsPast(s, e);
      hide Step;
    }
  }

  lemma {:induction false} RunAllGone(es: seq<Event>, s: State, env: Issued, a: nat)
    requires Reached(es, s, env)
    ensures AllGone(s, env, Chronicle(es, a))
  {
    hide Inv, Step, Allowed, Next, AllGone, Recorded;
    if es != [] {
      var before := es[..|es| - 1];
      var s0, env0 := Run(INITIAL, before), Issuing(INITIAL, NOTHING_ISSUED, before);
      RunAllGone(before, s0, env0, a);
      ReachedInv(before, s0, env0);
      StepAllGone(s0, env0, es[|es| - 1], a, Chronicle(before, a));
    } else {
      NobodyGone(s, env);
    }
  }

  lemma NobodyGone(s: State, env: Issued)
    ensures AllGone(s, env, [])
  {
  }

  // ---- Rivals -----------------------------------------------------------------------------------

  // No occupant but the owner matches the record and comes before it: the living one comes first, then the dead from
  // the oldest that is remembered. If the owner is of another type, any match is one too many.
  ghost predicate Unrivalled(s: State, e: EtwObj, c: seq<Tenant>) {
    var d := DeadAt(s, e.address);
    var k := Owner(c, e.createdTs);
    var first := FirstMatch(e, d);
    if k < |c| then
      && !HasLiveMatch(s, e)
      && if SameType(e.kind, c[k].kind) then |c| - |d| <= k && first >= k - (|c| - |d|) else first == |d|
    else HasLiveMatch(s, e) || first == |d|
  }

  // The owner itself always matches, if it is remembered and its type fits.
  lemma OwnerMatches(e: EtwObj, d: seq<DeadObj>, c: seq<Tenant>)
    requires Remembers(d, c) && Sorted(c)
    ensures var k, n := Owner(c, e.createdTs), |c| - |d|;
            && k <= |c|
            && (n <= k < |c| && SameType(e.kind, c[k].kind) ==> FirstMatch(e, d) <= k - n)
  {
    var k, n := Owner(c, e.createdTs), |c| - |d|;
    OwnerIsUnique(c, e.createdTs, k);
    if n <= k < |c| {
      assert IsTenant(d[k - n], c, k, k == n);
    }
    hide Owner, Remembers;
  }

  // A living owner matches, if its type fits.
  lemma LiveOwnerMatches(s: State, env: Issued, e: EtwObj, c: seq<Tenant>)
    requires Objects(s, env) && SinceLast(s, e.address, c) && Sorted(c) && e.boundId == 0 && e.orphanTs == 0
    requires Owner(c, e.createdTs) == |c| && e.address in s.ix.ptrToId && s.ix.ptrToId[e.address] in s.live
    ensures HasLiveMatch(s, e) <==> SameType(e.kind, s.live[s.ix.ptrToId[e.address]].kind)
  {
    OwnerIsUnique(c, e.createdTs, |c|);
    hide Owner, Sorted;
    assert s.live[s.ix.ptrToId[e.address]].ptr == e.address;
  }

  // Attribution is right exactly if the owner has no rival; nothing is asked of the stamps.
  lemma AttributionExactly(es: seq<Event>, s: State, env: Issued, key: nat, ts: nat, nowMs: nat, pick: Order)
    requires Reached(es, s, env) && key in s.etw && Attributable(s.etw[key])
    requires var a := s.etw[key].address; Alternates(es, a) && DeathsInOrder(es)
    ensures var c := Chronicle(es, s.etw[key].address);
            Attributed(s, TryBind(s, key, ts, nowMs, pick), key, c, ts, nowMs) <==> Unrivalled(s, s.etw[key], c)
  {
    var a := s.etw[key].address;
    RunTenancy(es, s, env, a);
    RunAllGone(es, s, env, a);
    ChronicleSorted(es, a);
    ReachedInv(es, s, env);
    InvObjects(s, env);
    hide Reached, Inv, Binding, Chronicle, Attributed, Objects, Tenancy, Sorted, Unrivalled, TryBind, AllGone;
    StateAttributionExactly(s, env, key, ts, nowMs, pick, Chronicle(es, a));
  }

  lemma StateAttributionExactly(s: State, env: Issued, key: nat, ts: nat, nowMs: nat, pick: Order, c: seq<Tenant>)
    requires Objects(s, env) && key in s.etw && Attributable(s.etw[key])
    requires Tenancy(s, s.etw[key].address, c) && Sorted(c) && AllGone(s, env, c)
    ensures Attributed(s, TryBind(s, key, ts, nowMs, pick), key, c, ts, nowMs) <==> Unrivalled(s, s.etw[key], c)
  {
    var e, t := s.etw[key], TryBind(s, key, ts, nowMs, pick);
    var d, k, i := DeadAt(s, e.address), Owner(c, e.createdTs), FirstMatch(e, DeadAt(s, e.address));
    OwnerMatches(e, d, c);
    OwnerDiedAs(s, e, c);
    TryBindCases(s, key, ts, nowMs, pick);
    if k == |c| && e.address in s.ix.ptrToId && s.ix.ptrToId[e.address] in s.live {
      LiveOwnerMatches(s, env, e, c);
    }
    if HasLiveMatch(s, e) {
      BindIsToLive(s, key, s.ix.ptrToId[e.address], ts, pick);
      assert s.ix.ptrToId[e.address] != 0;
    } else if i < |d| {
      if k < |c| {
        OneVictim(s, t, key, d[i].id, c[k].id, ts, nowMs);
      }
    }
    hide TryBind, Bind, HasLiveMatch, ToLive, ToNobody, ToDead, Tenancy, Objects, Remembers, SameType, Sorted, Owner,
         FirstMatch, DeadAt;
  }

  lemma OneVictim(s: State, t: State, key: nat, id: nat, id2: nat, ts: nat, nowMs: nat)
    requires ToDead(s, t, key, id, ts)
    ensures ToDead(s, t, key, id2, ts) ==> id2 == id
    ensures !ToNobody(s, t, key, nowMs)
  {
    assert t.log[|s.log|].id == id;
  }

  // Away from the slack and from what was forgotten nobody has a rival.
  lemma ClearIsUnrivalled(s: State, env: Issued, e: EtwObj, c: seq<Tenant>)
    requires Objects(s, env) && Tenancy(s, e.address, c) && Sorted(c) && Clear(s, e.address, c, e.createdTs)
    requires e.boundId == 0 && e.orphanTs == 0
    ensures Unrivalled(s, e, c)
  {
    hide FirstMatch, Owner, SameType, Apart, LongForgotten, Sorted, DeadAt, Remembers, OneOwner, SinceLast,
         HasLiveMatch, Objects;
    FirstMatchIsOwner(e, DeadAt(s, e.address), c);
    LiveMatchIsOwner(s, env, e, c);
  }

  // The other order of arrival: a waiting record goes to the newcomer rightly exactly if the newcomer is its owner or
  // does not match. It matches too early if the last death that is remembered is within the slack, or none is.
  lemma NewcomerExactly(es: seq<Event>, s: State, env: Issued, ts: nat, p: CreatedPayload, pick: Order)
    requires Reached(es, s, env) && FreshObject(s, env, p) && p.ptr != 0 && p.ptr in s.ix.byAddr
    requires Alternates(es, p.ptr) && DeathsInOrder(es) && s.ix.byAddr[p.ptr] in s.etw
    requires var e := s.etw[s.ix.byAddr[p.ptr]]; e.boundId == 0 && e.orphanTs == 0
    ensures var key := s.ix.byAddr[p.ptr];
            var e, t, c := s.etw[key], Created(s, ts, p, pick), Chronicle(es, p.ptr);
            var owns := Owner(c, e.createdTs) == |c|;
            && key in t.etw
            && ((t.etw[key].boundId == p.id <==> SameType(e.kind, p.kind) && owns) <==>
                !(SameType(e.kind, p.kind) && !owns && e.createdTs + BIND_SLACK_NS >= LastAt(s, p.ptr)))
  {
    hide Reached, Inv, Chronicle, Created, Alternates, DeathsInOrder, LastAt, Tenancy, Sorted, Owner, SameType;
    var key, c := s.ix.byAddr[p.ptr], Chronicle(es, p.ptr);
    RunTenancy(es, s, env, p.ptr);
    ChronicleSorted(es, p.ptr);
    ReachedInv(es, s, env);
    FreshId(s, env, p);
    hide FreshObject;
    JoinsNewcomer(s, ts, p, pick);
    OwnerIsAfterLast(s, p.ptr, c, s.etw[key].createdTs);
  }

  lemma OwnerIsAfterLast(s: State, a: nat, c: seq<Tenant>, t: nat)
    requires Tenancy(s, a, c) && Sorted(c) && a != 0
    ensures Owner(c, t) == |c| ==> t + BIND_SLACK_NS >= LastAt(s, a)
  {
    OwnerIsUnique(c, t, |c|);
    LastRemembered(s, a, c);
    hide Owner, LastAt, Remembers;
  }
}
