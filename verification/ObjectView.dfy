// What the pipe alone says about the application's objects: the messages of those that are created and not yet
// destroyed. The launcher's objects, and all its totals, are at all times what these messages say.

module ObjectView {
  import opened Wire
  import opened Tallies
  import opened JoinState
  import opened JoinSteps
  import opened JoinInvariants
  import opened JoinQueue
  import opened JoinPipe
  import opened JoinAccounts
  import opened JoinRuns
  import opened JoinTheorems
  import opened JoinHistory

  // ---- The messages -----------------------------------------------------------------------------

  // The payloads of the objects that were created and not destroyed since.
  function Present(es: seq<Event>): map<nat, CreatedPayload> {
    if es == [] then map[] else
      var before, e := Present(es[..|es| - 1]), es[|es| - 1];
      if e.CreatedEvent? then before[e.p.id := e.p]
      else if e.DestroyedEvent? then before - {e.id}
      else before
  }

  // The object has the fields of its message.
  predicate FromMessage(o: LiveObject, p: CreatedPayload) {
    && o.id == p.id && o.kind == p.kind && o.alloc == p.alloc && o.heapType == p.heapType
    && o.size == p.size && o.parent == p.parentHeapId && o.ptr == p.ptr
  }

  ghost predicate AllFromMessages(live: map<nat, LiveObject>, present: map<nat, CreatedPayload>) {
    live.Keys == present.Keys && forall i | i in live :: FromMessage(live[i], present[i])
  }

  lemma CreatedFromMessage(s: State, ts: nat, p: CreatedPayload, pick: Order, present: map<nat, CreatedPayload>)
    requires AllFromMessages(s.live, present) && p.id !in s.live
    ensures AllFromMessages(Created(s, ts, p, pick).live, present[p.id := p])
  {
    CreatedPast(s, ts, p, pick);
    hide Created, MovesIn;
    MovedFromMessage(s, Created(s, ts, p, pick), p, present);
  }

  lemma MovedFromMessage(s: State, t: State, p: CreatedPayload, present: map<nat, CreatedPayload>)
    requires AllFromMessages(s.live, present) && p.id !in s.live && MovesIn(s, t, p)
    ensures AllFromMessages(t.live, present[p.id := p])
  {
    hide LastAt;
  }

  lemma DestroyedFromMessage(s: State, env: Issued, ts: nat, id: nat, pick: Order, present: map<nat, CreatedPayload>)
    requires Objects(s, env) && Binding(s) && AllFromMessages(s.live, present)
    ensures AllFromMessages(Destroyed(s, ts, id, pick).live, present - {id})
  {
    if id in s.live {
      DestroyedPast(s, env, ts, id, pick);
      hide Destroyed, Objects, Binding, Bury;
    } else {
      NoDeath(s, ts, id, pick);
      hide Destroyed, Objects, Binding;
      assert present - {id} == present;
    }
  }

  lemma OthersFromMessage(s: State, e: Event, present: map<nat, CreatedPayload>)
    requires AllFromMessages(s.live, present) && !e.CreatedEvent? && !e.DestroyedEvent?
    ensures AllFromMessages(Step(s, e).live, present)
  {
    if e.TickEvent? {
      ExpireQueueFrame(s, e.nowMs);
      PruneFrame(ExpireQueue(s, e.nowMs), e.nowTs);
      hide ExpireQueue, Prune;
    } else {
      EventKeepsPast(s, e);
      hide Step;
    }
  }

  lemma StepFromMessages(s: State, env: Issued, e: Event, present: map<nat, CreatedPayload>)
    requires Inv(s, env) && Allowed(s, env, e) && AllFromMessages(s.live, present)
    ensures AllFromMessages(Step(s, e).live, if e.CreatedEvent? then present[e.p.id := e.p]
                                             else if e.DestroyedEvent? then present - {e.id} else present)
  {
    hide Inv, Created, Destroyed, AllFromMessages, Objects, Binding, FreshObject;
    if e.CreatedEvent? {
      FreshId(s, env, e.p);
      CreatedFromMessage(s, e.ts, e.p, e.pick, present);
    } else if e.DestroyedEvent? {
      InvObjects(s, env);
      DestroyedFromMessage(s, env, e.ts, e.id, e.pick, present);
    } else {
      OthersFromMessage(s, e, present);
      hide Step;
    }
  }

  // In every reachable state the live objects are the messages of those created and not destroyed.
  lemma {:induction false} ObjectsAreMessages(es: seq<Event>, s: State, env: Issued)
    requires Reached(es, s, env)
    ensures AllFromMessages(s.live, Present(es))
  {
    hide Inv, AllFromMessages, Step, Allowed, JoinRuns.Next;
    if es != [] {
      var before := es[..|es| - 1];
      var s0, env0 := Run(INITIAL, before), Issuing(INITIAL, NOTHING_ISSUED, before);
      ObjectsAreMessages(before, s0, env0);
      ReachedInv(before, s0, env0);
      StepFromMessages(s0, env0, es[|es| - 1], Present(before));
    } else {
      NothingPresent();
    }
  }

  lemma NothingPresent()
    ensures AllFromMessages(INITIAL.live, map[])
  {
  }

  // Each of them comes from a Created message of the run.
  lemma {:induction false} PresentWasCreated(es: seq<Event>, i: nat)
    requires i in Present(es)
    ensures exists n | 0 <= n < |es| :: es[n].CreatedEvent? && es[n].p == Present(es)[i] && es[n].p.id == i
  {
    var e := es[|es| - 1];
    if e.CreatedEvent? && e.p.id == i {
      assert es[|es| - 1].CreatedEvent?;
    } else {
      var before := es[..|es| - 1];
      PresentWasCreated(before, i);
      var n :| 0 <= n < |before| && before[n].CreatedEvent? && before[n].p == Present(before)[i] && before[n].p.id == i;
      assert es[n] == before[n];
    }
  }

  // ---- The totals -------------------------------------------------------------------------------

  // D3D12_HEAP_TYPE_DEFAULT to D3D12_HEAP_TYPE_GPU_UPLOAD have rows 1 to 5; the objects without a heap type have row 0.
  predicate InRow(row: nat, heapType: nat) {
    row == heapType == 1 || row == heapType == 2 || row == heapType == 3 || row == heapType == 4
    || row == heapType == 5 || (row == 0 && !(heapType in {1, 2, 3, 4, 5}))
  }

  ghost function CellBytes(c: AllocCell, p: CreatedPayload): nat {
    if InRow(c.bucket, p.heapType) && c.alloc == p.alloc then p.size else 0
  }

  ghost function CellCount(c: AllocCell, p: CreatedPayload): nat {
    if InRow(c.bucket, p.heapType) && c.alloc == p.alloc then 1 else 0
  }

  ghost function KindCount(kind: ObjectType, p: CreatedPayload): nat {
    if p.kind == kind then 1 else 0
  }

  ghost function Bytes(u: (), p: CreatedPayload): nat {
    p.size
  }

  // Values that two weights cannot tell apart have the same sums.
  lemma {:induction false} SumMapped<K, V, W>(m: map<nat, V>, n: map<nat, W>, v: (K, V) -> nat, w: (K, W) -> nat, k: K)
    requires m.Keys == n.Keys && forall i | i in m :: v(k, m[i]) == w(k, n[i])
    ensures Sum(m, v, k) == Sum(n, w, k)
    decreases |m|
  {
    if |m| > 0 {
      var i := Pick(m);
      assert m.Keys == (m - {i}).Keys + {i};
      SumRemove(n, w, k, i);
      SumMapped(m - {i}, n - {i}, v, w, k);
    } else {
      assert m.Keys == {} && |n.Keys| == 0;
    }
  }

  // Bytes and counts by heap type and allocation kind, counts by type, and all live bytes, from the messages alone.
  lemma TotalsAreMessages(es: seq<Event>, s: State, env: Issued, c: AllocCell, kind: ObjectType)
    requires Reached(es, s, env)
    ensures At(s.totals.bytes, c) == Sum(Present(es), CellBytes, c)
    ensures At(s.totals.counts, c) == Sum(Present(es), CellCount, c)
    ensures At(s.totals.perType, kind) == Sum(Present(es), KindCount, kind)
    ensures s.totals.liveBytes == Sum(Present(es), Bytes, ())
  {
    hide Reached, Present, Sum, DriversInv, LocTally, BytesWeight, CountWeight, CellBytes, CellCount, FromMessage;
    ObjectsAreMessages(es, s, env);
    ReachedAccounts(es, s, env);
    var m := Present(es);
    forall i | i in s.live
      ensures BytesWeight(c, s.live[i]) == CellBytes(c, m[i]) && CountWeight(c, s.live[i]) == CellCount(c, m[i])
      ensures TypeWeight(kind, s.live[i]) == KindCount(kind, m[i]) && SizeWeight((), s.live[i]) == Bytes((), m[i])
    {
      WeightsAgree(s.live[i], m[i], c, kind);
    }
    SumMapped(s.live, m, BytesWeight, CellBytes, c);
    SumMapped(s.live, m, CountWeight, CellCount, c);
    SumMapped(s.live, m, TypeWeight, KindCount, kind);
    SumMapped(s.live, m, SizeWeight, Bytes, ());
  }

  lemma WeightsAgree(o: LiveObject, p: CreatedPayload, c: AllocCell, kind: ObjectType)
    requires FromMessage(o, p)
    ensures BytesWeight(c, o) == CellBytes(c, p) && CountWeight(c, o) == CellCount(c, p)
    ensures TypeWeight(kind, o) == KindCount(kind, p) && SizeWeight((), o) == Bytes((), p)
  {
  }
}
