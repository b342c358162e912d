// Attribution does not depend on what the pipe delivers later: the verdict of the moment is that of the whole run.

module JoinHindsight {
  import opened Wire
  import opened JoinState
  import opened JoinSteps
  import opened JoinInvariants
  import opened JoinQueue
  import opened JoinPipe
  import opened JoinRuns
  import opened JoinTheorems
  import opened JoinHistory
  import opened JoinAttribution

  // ---- A run cut after m events -----------------------------------------------------------------

  lemma {:induction false} AlternatesPrefix(es: seq<Event>, m: nat, a: nat)
    requires m <= |es| && Alternates(es, a)
    ensures Alternates(es[..m], a)
  {
    if m < |es| {
      hide Vacant, Run;
      AlternatesPrefix(es[..|es| - 1], m, a);
      assert es[..|es| - 1][..m] == es[..m];
    } else {
      assert es[..m] == es;
    }
  }

  lemma {:induction false} DeathsPrefix(es: seq<Event>, m: nat)
    requires m <= |es| && DeathsInOrder(es)
    ensures DeathsInOrder(es[..m])
  {
    if m < |es| {
      hide LastDeath;
      DeathsPrefix(es[..|es| - 1], m);
      assert es[..|es| - 1][..m] == es[..m];
    } else {
      assert es[..m] == es;
    }
  }

  // No death before t is delivered after the first m events.
  ghost predicate DeliveredUpTo(es: seq<Event>, m: nat, t: nat) {
    forall n | m <= n < |es| && es[n].DestroyedEvent? :: t <= es[n].ts
  }

  // The chronicle only grows at its end, and by deaths at or after t.
  lemma {:induction false} ChronicleGrows(es: seq<Event>, m: nat, a: nat, t: nat)
    requires m <= |es| && DeliveredUpTo(es, m, t)
    ensures var c0, c := Chronicle(es[..m], a), Chronicle(es, a);
            && |c0| <= |c| && c0 == c[..|c0|]
            && forall k | |c0| <= k < |c| :: t <= c[k].death
  {
    if m < |es| {
      hide Run;
      ChronicleGrows(es[..|es| - 1], m, a, t);
      assert es[..|es| - 1][..m] == es[..m];
    } else {
      assert es[..m] == es;
    }
  }

  // ---- The living one at the cut ----------------------------------------------------------------

  ghost predicate LivesAt(s: State, i: nat, a: nat, kind: ObjectType) {
    i in s.live && s.live[i].ptr == a && s.live[i].kind == kind
  }

  lemma StaysUntilDestroyed(s: State, env: Issued, e: Event, i: nat, a: nat, kind: ObjectType)
    requires Inv(s, env) && Allowed(s, env, e) && LivesAt(s, i, a, kind) && !(e.DestroyedEvent? && e.id == i)
    ensures LivesAt(Step(s, e), i, a, kind)
  {
    hide Inv, FreshObject, Created, Destroyed, Tick, Objects, Binding;
    if !TouchesPast(e) {
      EventKeepsPast(s, e);
      hide Step, Allowed;
    } else if e.CreatedEvent? {
      FreshId(s, env, e.p);
      CreatedKeepsLives(s, e, i, a, kind);
    } else if e.TickEvent? {
      TickFramesLives(s, e.nowMs, e.nowTs, i, a, kind);
    } else {
      InvObjects(s, env);
      OthersStay(s, env, e.ts, e.id, e.pick, i, a, kind);
    }
  }

  lemma CreatedKeepsLives(s: State, e: Event, i: nat, a: nat, kind: ObjectType)
    requires LivesAt(s, i, a, kind) && e.CreatedEvent? && e.p.id !in s.live
    ensures LivesAt(Step(s, e), i, a, kind)
  {
    CreatedPast(s, e.ts, e.p, e.pick);
    hide Created;
  }

  lemma TickFramesLives(s: State, nowMs: nat, nowTs: nat, i: nat, a: nat, kind: ObjectType)
    requires LivesAt(s, i, a, kind)
    ensures LivesAt(Tick(s, nowMs, nowTs), i, a, kind)
  {
    ExpireQueueFrame(s, nowMs);
    PruneFrame(ExpireQueue(s, nowMs), nowTs);
    hide ExpireQueue, Prune;
  }

  lemma OthersStay(s: State, env: Issued, ts: nat, id: nat, pick: Order, i: nat, a: nat, kind: ObjectType)
    requires Objects(s, env) && Binding(s) && LivesAt(s, i, a, kind) && i != id
    ensures LivesAt(Destroyed(s, ts, id, pick), i, a, kind)
  {
    if id in s.live {
      DestroyedPast(s, env, ts, id, pick);
    } else {
      NoDeath(s, ts, id, pick);
    }
    hide Destroyed, Objects, Binding, Bury;
  }

  // Whoever lives at the address at the cut is the next one to die there, or still lives there at the end.
  lemma {:induction false} LivingIsNext(es: seq<Event>, m: nat, i: nat, a: nat, kind: ObjectType)
    requires Fair(INITIAL, NOTHING_ISSUED, es) && Alternates(es, a) && a != 0 && m <= |es|
    requires LivesAt(Run(INITIAL, es[..m]), i, a, kind)
    ensures var n, c := |Chronicle(es[..m], a)|, Chronicle(es, a);
            && n <= |c|
            && if n < |c| then c[n].id == i && c[n].kind == kind else LivesAt(Run(INITIAL, es), i, a, kind)
  {
    hide Inv, Step, Allowed, Next, Tenancy, Recorded, LivesAt;
    if m < |es| {
      var before, e := es[..|es| - 1], es[|es| - 1];
      assert before[..m] == es[..m];
      LivingIsNext(before, m, i, a, kind);
      var s0, env0 := Run(INITIAL, before), Issuing(INITIAL, NOTHING_ISSUED, before);
      RunTenancy(before, s0, env0, a);
      ReachedInv(before, s0, env0);
      hide Reached, Alternates;
      RecordedGrows(Chronicle(before, a), s0, e, a);
      if |Chronicle(before, a)| == |Chronicle(es[..m], a)| {
        LivesOrDies(s0, env0, e, i, a, kind, Chronicle(before, a));
      }
    } else {
      assert es[..m] == es;
    }
  }

  lemma RecordedGrows(c: seq<Tenant>, s: State, e: Event, a: nat)
    ensures |c| <= |Recorded(c, s, e, a)| && Recorded(c, s, e, a)[..|c|] == c
  {
  }

  lemma LivesOrDies(s: State, env: Issued, e: Event, i: nat, a: nat, kind: ObjectType, c: seq<Tenant>)
    requires Inv(s, env) && Allowed(s, env, e) && Tenancy(s, a, c) && LivesAt(s, i, a, kind)
    ensures var c2 := Recorded(c, s, e, a);
            if |c2| == |c| then LivesAt(Step(s, e), i, a, kind) else c2[|c|].id == i && c2[|c|].kind == kind
  {
    hide Inv, Step, Allowed, Remembers, SinceLast;
    if !(e.DestroyedEvent? && e.id == i) {
      StaysUntilDestroyed(s, env, e, i, a, kind);
    }
  }

  // ---- The verdict ------------------------------------------------------------------------------

  // The record went to the owner of its address at its creation as the chronicle c of the whole run has it, when n
  // owners had died and s was the state. Who was alive then is the n-th of c, or lives in the last state.
  ghost predicate FinallyRight(s: State, t: State, key: nat, c: seq<Tenant>, n: nat, last: State, ts: nat, nowMs: nat)
    requires key in s.etw
  {
    var e := s.etw[key];
    var k := Owner(c, e.createdTs);
    && k <= n <= |c|
    && if k < n then
         if SameType(e.kind, c[k].kind) then ToDead(s, t, key, c[k].id, ts) else ToNobody(s, t, key, nowMs)
       else if e.address in s.ix.ptrToId && s.ix.ptrToId[e.address] in s.live then
         var id := s.ix.ptrToId[e.address];
         && (if k < |c| then c[k].id == id && c[k].kind == s.live[id].kind
             else LivesAt(last, id, e.address, s.live[id].kind))
         && if SameType(e.kind, s.live[id].kind) then ToLive(s, t, key, id, ts) else ToNobody(s, t, key, nowMs)
       else ToNobody(s, t, key, nowMs)
  }

  // Once all deaths before the record's creation were delivered, no later event of the pipe changes whose it is.
  lemma AttributionIsFinal(es: seq<Event>, m: nat, s: State, env: Issued, key: nat, ts: nat, nowMs: nat, pick: Order)
    requires Fair(INITIAL, NOTHING_ISSUED, es) && m <= |es| && Reached(es[..m], s, env)
    requires key in s.etw && Attributable(s.etw[key])
    requires var e := s.etw[key];
             && Alternates(es, e.address) && DeathsInOrder(es) && DeliveredUpTo(es, m, e.createdTs)
             && Clear(s, e.address, Chronicle(es[..m], e.address), e.createdTs)
    ensures var a := s.etw[key].address;
            FinallyRight(s, TryBind(s, key, ts, nowMs, pick), key, Chronicle(es, a), |Chronicle(es[..m], a)|,
                         Run(INITIAL, es), ts, nowMs)
  {
    var e := s.etw[key];
    var a := e.address;
    AlternatesPrefix(es, m, a);
    DeathsPrefix(es, m);
    ChronicleSorted(es, a);
    ChronicleGrows(es, m, a, e.createdTs);
    AttributionIsRight(es[..m], s, env, key, ts, nowMs, pick);
    hide Reached, TryBind, Clear, Chronicle, Alternates, DeathsInOrder, DeliveredUpTo, Run, Fair, Sorted, ToDead,
         ToLive, ToNobody, SameType, Owner;
    var c, n := Chronicle(es, a), |Chronicle(es[..m], a)|;
    OwnerNeedsOnlyThePast(c, n, e.createdTs);
    if a in s.ix.ptrToId && s.ix.ptrToId[a] in s.live {
      var id := s.ix.ptrToId[a];
      IndexedLives(es[..m], s, env, a);
      LivingIsNext(es, m, id, a, s.live[id].kind);
    }
  }

  lemma IndexedLives(es: seq<Event>, s: State, env: Issued, a: nat)
    requires Reached(es, s, env) && a in s.ix.ptrToId && s.ix.ptrToId[a] in s.live
    ensures s.live[s.ix.ptrToId[a]].ptr == a
  {
    ReachedInv(es, s, env);
    hide Reached;
    InvObjects(s, env);
    hide Inv;
  }
}
