// Attribution as the reports tell it: a library object goes to whoever had its address when its creation was stamped.

module JoinVerdict {
  import opened Wire
  import opened Timeline
  import opened JoinState
  import opened JoinSteps
  import opened JoinInvariants
  import opened JoinPipe
  import opened JoinRuns
  import opened JoinTheorems
  import opened JoinHistory
  import opened JoinAttribution
  import opened LibraryView
  import Etw

  // The object was created when the launcher's clock showed `at`: its stamp is the rounding of that counter value.
  ghost predicate CreatedAt(o: LibObject, at: nat) {
    && o.clock.Clock? && o.clock.freq > 0 && 0 < o.abs < 0x8000_0000_0000_0000
    && exists q: nat :: o.clock.start <= q && o.abs == Rounded(q, o.clock.freq)
                        && at == Rounded(q - o.clock.start, o.clock.freq)
  }

  // The moment is more than the slack away from every death, and after all that were forgotten.
  ghost predicate ClearOf(s: State, a: nat, c: seq<Tenant>, at: nat) {
    && (forall k | 0 <= k < |c| :: at + 100_001 < c[k].death || c[k].death + 100_000 < at)
    && (forall k | 0 <= k < |c| - |DeadAt(s, a)| :: c[k].death + 100_000 < at)
  }

  lemma {:induction false} SameOwner(c: seq<Tenant>, at: nat, t: nat)
    requires Sorted(c) && at <= t <= at + 1 && forall k | 0 <= k < |c| :: t <= c[k].death || c[k].death < at
    ensures Owner(c, t) == Owner(c, at)
  {
    if c != [] {
      SameOwner(c[1..], at, t);
    }
  }

  // The stamp of the record is that moment, or one nanosecond more; so it is clear as well and has the same owner.
  lemma StampIsClear(s: State, o: LibObject, e: EtwObj, a: nat, c: seq<Tenant>, at: nat)
    requires Shows(o, e) && CreatedAt(o, at) && ClearOf(s, a, c, at) && Sorted(c)
    ensures Clear(s, a, c, e.createdTs) && Owner(c, e.createdTs) == Owner(c, at)
  {
    hide Owner, DeadAt, Rounded;
    var q: nat :| o.clock.start <= q && o.abs == Rounded(q, o.clock.freq)
                  && at == Rounded(q - o.clock.start, o.clock.freq);
    assert at <= e.createdTs <= at + 1;
    SameOwner(c, at, e.createdTs);
  }

  // ---- The verdict ------------------------------------------------------------------------------

  // k, an object of the given type that was created at the address when the j-th owner of c had it, or the living one,
  // goes to that owner exactly if the types are the same, and to nobody else.
  ghost predicate Verdict(s: State, t: State, k: nat, kind: Etw.ObjType, a: nat, c: seq<Tenant>, j: nat) {
    && j <= |c| && k in t.etw
    && if j < |c| then
         t.etw[k].boundId == 0 &&
         if SameType(kind, c[j].kind)
         then t.etw[k].orphanTs != 0 && t.log != [] && t.log[|t.log| - 1].BindLine? && t.log[|t.log| - 1].late
              && t.log[|t.log| - 1].id == c[j].id && t.log[|t.log| - 1].key == k
         else t.etw[k].orphanTs == 0 && Waits(t.etw[k])
       else
         && (forall i | i in s.live && s.live[i].ptr == a && SameType(kind, s.live[i].kind) ::
               t.etw[k].boundId == i && i in t.live && t.live[i].etwKey == k)
         && ((forall i | i in s.live && s.live[i].ptr == a :: !SameType(kind, s.live[i].kind)) ==>
               t.etw[k].boundId == 0 && t.etw[k].orphanTs == 0 && Waits(t.etw[k]))
  }

  // It waits for its object, or has done so in vain.
  predicate Waits(e: EtwObj) {
    e.pendingSince != 0 || e.expired
  }

  lemma AttributedIsVerdict(s: State, env: Issued, t: State, key: nat, c: seq<Tenant>, ts: nat, nowMs: nat)
    requires Objects(s, env) && key in s.etw && OneOwner(s, s.etw[key].address)
    requires Attributed(s, t, key, c, ts, nowMs)
    ensures Verdict(s, t, key, s.etw[key].kind, s.etw[key].address, c, Owner(c, s.etw[key].createdTs))
  {
    hide Owner, SameType;
    var e := s.etw[key];
    if e.address in s.ix.ptrToId && s.ix.ptrToId[e.address] in s.live {
      assert s.live[s.ix.ptrToId[e.address]].ptr == e.address;
    }
  }

  // One attempt at a record that shows o gives the verdict.
  lemma StateGivesVerdict(u: State, env: Issued, o: LibObject, k: nat, ts: nat, nowMs: nat, pick: Order,
                          c: seq<Tenant>, at: nat)
    requires Objects(u, env) && k in u.etw && Attributable(u.etw[k]) && Shows(o, u.etw[k])
    requires Tenancy(u, o.address, c) && Sorted(c) && CreatedAt(o, at) && ClearOf(u, o.address, c, at)
    ensures Verdict(u, TryBind(u, k, ts, nowMs, pick), k, o.kind, o.address, c, Owner(c, at))
  {
    hide OnTimeline, ClearOf, CreatedAt, Verdict, TryBind, Attributed, Owner, Remembers, SinceLast, Sorted, Objects,
         Attributable, OneOwner, Clear;
    StampIsClear(u, o, u.etw[k], o.address, c, at);
    StateAttribution(u, env, k, ts, nowMs, pick, c);
    AttributedIsVerdict(u, env, TryBind(u, k, ts, nowMs, pick), k, c, ts, nowMs);
  }

  // A type that the pipe knows.
  predicate Shared(kind: Etw.ObjType) {
    kind.Resource? || kind.Heap? || kind.PipelineState? || kind.CommandAllocator? || kind.DescriptorHeap?
  }

  // What every run gives.
  lemma Grounds(es: seq<Event>, s: State, env: Issued, a: nat)
    requires Reached(es, s, env) && Alternates(es, a) && DeathsInOrder(es) && a != 0
    ensures Agrees(s, Seen(es)) && Tenancy(s, a, Chronicle(es, a)) && Sorted(Chronicle(es, a))
    ensures Objects(s, env) && Forest(s, env)
  {
    hide Reached, Chronicle, Seen, Alternates, DeathsInOrder, Inv, Agrees, Forest, Objects, Tenancy, Sorted;
    RecordsAreReports(es, s, env);
    RunTenancy(es, s, env, a);
    ChronicleSorted(es, a);
    ReachedInv(es, s, env);
    InvObjects(s, env);
    InvForest(s, env);
  }

  // An attempt that starts from a state with the same past.
  lemma AttemptGivesVerdict(s: State, u: State, env: Issued, o: LibObject, k: nat, ts: nat, nowMs: nat, pick: Order,
                            a: nat, c: seq<Tenant>, at: nat)
    requires SamePast(s, u) && u.live == s.live && Objects(u, env)
    requires k in u.etw && Attributable(u.etw[k]) && Shows(o, u.etw[k]) && o.address == a
    requires Tenancy(s, a, c) && Sorted(c) && CreatedAt(o, at) && ClearOf(s, a, c, at)
    ensures Verdict(s, TryBind(u, k, ts, nowMs, pick), k, o.kind, a, c, Owner(c, at))
  {
    assert DeadAt(u, a) == DeadAt(s, a);
    SamePastTenancy(s, u, a, c);
    hide OnTimeline, CreatedAt, Verdict, TryBind, Owner, Sorted, Objects, Attributable, Tenancy, Shows;
    StateGivesVerdict(u, env, o, k, ts, nowMs, pick, c, at);
    SameVerdict(s, u, TryBind(u, k, ts, nowMs, pick), k, o.kind, a, c, Owner(c, at));
  }

  // ---- The address of a new object --------------------------------------------------------------

  lemma PlacedStep(s: State, env: Issued, v: View, lib: nat, addr: nat, nowMs: nat, pick: Order)
    requires Agrees(s, v) && Forest(s, env) && Objects(s, env) && addr != 0 && Names(v, lib)
    requires v.objects[v.names[lib]].address == 0 && !Repeats(v, v.names[lib], addr)
    requires Shared(v.objects[v.names[lib]].kind)
    ensures var k := v.names[lib];
            && k in s.etw
            && var u := SetAddress(s, k, addr);
            && Step(s, EtwAddressEvent(lib, addr, nowMs, pick)) == TryBind(u, k, s.etw[k].createdTs, nowMs, pick)
            && Attributable(u.etw[k]) && Shows(v.objects[k].(address := addr), u.etw[k])
            && SamePast(s, u) && Objects(u, env) && u.live == s.live
  {
    hide OnHello, OnTimeline, TryBind, Binding, Objects;
    var k := v.names[lib];
    RepeatsIsReReport(s, v, k, addr);
    assert Shows(v.objects[k], s.etw[k]);
    assert Blank(s.etw[k]);
    hide Agrees, Forest, Repeats;
    var u := SetAddress(s, k, addr);
    assert SameIdentities(s, u);
    IdentitiesKeepObjects(s, u, env);
  }

  // The address report of a new library object, of a type the pipe knows, attributes it to the owner of the address at
  // the moment of its creation.
  lemma AddressGivesVerdict(es: seq<Event>, s: State, env: Issued, lib: nat, addr: nat, nowMs: nat, pick: Order,
                            at: nat)
    requires Reached(es, s, env) && addr != 0 && Names(Seen(es), lib)
    requires var v, k := Seen(es), Seen(es).names[lib];
             && v.objects[k].address == 0 && !Repeats(v, k, addr) && CreatedAt(v.objects[k], at)
             && Shared(v.objects[k].kind)
    requires Alternates(es, addr) && DeathsInOrder(es) && ClearOf(s, addr, Chronicle(es, addr), at)
    ensures var v, k, c := Seen(es), Seen(es).names[lib], Chronicle(es, addr);
            Verdict(s, Step(s, EtwAddressEvent(lib, addr, nowMs, pick)), k, v.objects[k].kind, addr, c, Owner(c, at))
  {
    hide Reached, Chronicle, Seen, Alternates, DeathsInOrder, Repeats, CreatedAt, ClearOf, Owner, Agrees, Forest,
         Objects, Tenancy, Sorted, TryBind, Verdict, Attributable, Shows, Step, Shared, SamePast;
    var v, k, c := Seen(es), Seen(es).names[lib], Chronicle(es, addr);
    Grounds(es, s, env, addr);
    PlacedStep(s, env, v, lib, addr, nowMs, pick);
    var o := v.objects[k].(address := addr);
    SameCreation(v.objects[k], o, at);
    AttemptGivesVerdict(s, SetAddress(s, k, addr), env, o, k, s.etw[k].createdTs, nowMs, pick, addr, c, at);
  }

  lemma SameVerdict(s: State, u: State, t: State, k: nat, kind: Etw.ObjType, a: nat, c: seq<Tenant>, j: nat)
    requires Verdict(u, t, k, kind, a, c, j) && u.live == s.live
    ensures Verdict(s, t, k, kind, a, c, j)
  {
  }

  // ---- A second report of an object that waits --------------------------------------------------

  lemma RepeatedStep(s: State, env: Issued, v: View, lib: nat, addr: nat, nowMs: nat, pick: Order)
    requires Agrees(s, v) && Forest(s, env) && Objects(s, env) && addr != 0 && Names(v, lib)
    requires v.objects[v.names[lib]].address == 0 && Repeats(v, v.names[lib], addr)
    requires Shared(v.objects[v.names[lib]].kind)
    requires s.etw[v.holders[addr]].boundId == 0 && s.etw[v.holders[addr]].orphanTs == 0
    ensures var k, into := v.names[lib], v.holders[addr];
            && k in s.etw && into in s.etw && k != into
            && var u := Fold(s, k, into, pick);
            && Step(s, EtwAddressEvent(lib, addr, nowMs, pick)) == TryBind(u, into, s.etw[k].createdTs, nowMs, pick)
            && into in u.etw && Attributable(u.etw[into]) && Shows(Repeated(v, k, into).objects[into], u.etw[into])
            && SamePast(s, u) && Objects(u, env) && u.live == s.live && v.objects[into].address == addr
  {
    hide OnHello, OnTimeline, TryBind, Binding, Fold, Repeated, Objects;
    var k, into := v.names[lib], v.holders[addr];
    RepeatsIsReReport(s, v, k, addr);
    assert Shows(v.objects[k], s.etw[k]) && Shows(v.objects[into], s.etw[into]);
    HolderHasAddress(s, env, addr);
    RepeatedOnce(v, k, into);
    FoldAgrees(s, v, k, into, pick);
    FoldPast(s, k, into, pick);
    FoldChanges(s, k, into, pick);
    UnboundFold(s, k, into, pick);
    var u := Fold(s, k, into, pick);
    assert Shows(Repeated(v, k, into).objects[into], u.etw[into]);
    hide Repeats, Agrees, Forest;
    IdentitiesKeepObjects(s, u, env);
  }

  lemma HolderHasAddress(s: State, env: Issued, addr: nat)
    requires Forest(s, env) && addr in s.ix.byAddr
    ensures s.ix.byAddr[addr] in s.etw && s.etw[s.ix.byAddr[addr]].address == addr != 0
  {
  }

  // Folding into a record without an object touches no object.
  lemma UnboundFold(s: State, key: nat, into: nat, pick: Order)
    requires key in s.etw && into in s.etw && key != into && s.etw[into].boundId == 0
    ensures var u := Fold(s, key, into, pick);
            u.live == s.live && u.ix.ptrToId == s.ix.ptrToId && u.ix.children == s.ix.children
  {
    hide AddDriver, SubDriver, Relocate;
  }

  // A second report gives the record that waits another attempt, at its own creation's moment.
  lemma RepeatGivesVerdict(es: seq<Event>, s: State, env: Issued, lib: nat, addr: nat, nowMs: nat, pick: Order, at: nat)
    requires Reached(es, s, env) && addr != 0 && Names(Seen(es), lib)
    requires var v, k := Seen(es), Seen(es).names[lib];
             && v.objects[k].address == 0 && Repeats(v, k, addr) && CreatedAt(v.objects[v.holders[addr]], at)
             && Shared(v.objects[k].kind) && v.holders[addr] in s.etw
             && s.etw[v.holders[addr]].boundId == 0 && s.etw[v.holders[addr]].orphanTs == 0
    requires Alternates(es, addr) && DeathsInOrder(es) && ClearOf(s, addr, Chronicle(es, addr), at)
    ensures var v, c := Seen(es), Chronicle(es, addr);
            var into := v.holders[addr];
            Verdict(s, Step(s, EtwAddressEvent(lib, addr, nowMs, pick)), into, v.objects[into].kind, addr, c,
                    Owner(c, at))
  {
    hide Reached, Chronicle, Seen, Alternates, DeathsInOrder, CreatedAt, ClearOf, Owner, Agrees, Forest, Objects,
         Tenancy, Sorted, TryBind, Verdict, Attributable, Shows, Step, Shared, Fold, SamePast, Repeated;
    var v, k, c := Seen(es), Seen(es).names[lib], Chronicle(es, addr);
    var into := v.holders[addr];
    Grounds(es, s, env, addr);
    RepeatedOnce(v, k, into);
    RepeatedStep(s, env, v, lib, addr, nowMs, pick);
    var u, o := Fold(s, k, into, pick), Repeated(v, k, into).objects[into];
    SameCreation(v.objects[into], o, at);
    AttemptGivesVerdict(s, u, env, o, into, s.etw[k].createdTs, nowMs, pick, addr, c, at);
  }

  lemma SameCreation(o: LibObject, o2: LibObject, at: nat)
    requires CreatedAt(o, at) && o2.abs == o.abs && o2.clock == o.clock
    ensures CreatedAt(o2, at)
  {
  }

  // ---- The other order of arrival ---------------------------------------------------------------

  // A record that waits at the address goes to the new object exactly if their types are the same and nobody has died
  // there since the library object was created.
  lemma NewcomerGivesVerdict(es: seq<Event>, s: State, env: Issued, ts: nat, p: CreatedPayload, pick: Order, at: nat)
    requires Reached(es, s, env) && FreshObject(s, env, p) && p.ptr != 0 && p.ptr in Seen(es).holders
    requires Alternates(es, p.ptr) && DeathsInOrder(es) && Vacant(s, p.ptr)
    requires var v, k := Seen(es), Seen(es).holders[p.ptr];
             && k in v.objects && CreatedAt(v.objects[k], at) && ClearOf(s, p.ptr, Chronicle(es, p.ptr), at)
             && k in s.etw && s.etw[k].boundId == 0 && s.etw[k].orphanTs == 0
    ensures var v, k, c := Seen(es), Seen(es).holders[p.ptr], Chronicle(es, p.ptr);
            var t := Step(s, CreatedEvent(ts, p, pick));
            && k in t.etw
            && (t.etw[k].boundId == p.id <==> SameType(v.objects[k].kind, p.kind) && Owner(c, at) == |c|)
  {
    var v, k, c := Seen(es), Seen(es).holders[p.ptr], Chronicle(es, p.ptr);
    hide Reached, Chronicle, Seen, Alternates, DeathsInOrder, CreatedAt, Owner, Sorted, SameType, OnTimeline, ClearOf,
         Created, FreshObject, Vacant, OnHello, Clear;
    RecordsAreReports(es, s, env);
    ChronicleSorted(es, p.ptr);
    StampIsClear(s, v.objects[k], s.etw[k], p.ptr, c, at);
    NewcomerIsRight(es, s, env, ts, p, pick);
  }
}
