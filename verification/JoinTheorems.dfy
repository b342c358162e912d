// What a user of the launcher can rely on in every reachable state.

module JoinTheorems {
  import opened Wire
  import opened Tallies
  import opened JoinState
  import opened JoinSteps
  import opened JoinInvariants
  import opened JoinAccounts
  import opened SidecarReader
  import opened JoinLog
  import opened JoinQueue
  import opened JoinLedger
  import opened JoinRuns
  import Etw

  // s is what some run of promised events leads to.
  ghost predicate Reached(es: seq<Event>, s: State, env: Issued) {
    Fair(INITIAL, NOTHING_ISSUED, es) && s == Run(INITIAL, es) && env == Issuing(INITIAL, NOTHING_ISSUED, es)
  }

  lemma ReachedInv(es: seq<Event>, s: State, env: Issued)
    requires Reached(es, s, env)
    ensures Inv(s, env)
  {
    InitialInv();
    hide Inv;
    RunKeepsInv(INITIAL, NOTHING_ISSUED, es);
  }

  // The location shown for an object is its live heap's, if it is placed and that is known, else its own.
  lemma LocationsAreCurrent(es: seq<Event>, s: State, env: Issued, i: nat)
    requires Reached(es, s, env) && i in s.live
    ensures s.live[i].effLoc == EffLoc(s.live, s.live[i])
  {
    ReachedInv(es, s, env);
    hide Reached, JoinInv, AccountsInv, Ledger, DriverSizes, LogInv;
  }

  // ---- The binding ------------------------------------------------------------------------------

  ghost function BoundKeys(s: State): set<nat> {
    set k | k in s.etw && s.etw[k].boundId != 0
  }

  ghost function BoundIds(s: State): set<nat> {
    set i | i in s.live && s.live[i].etwKey != 0
  }

  lemma {:induction false} BijectionCounts(s: State, env: Issued, keys: set<nat>, ids: set<nat>)
    requires LiveIds(s, env) && Binding(s)
    requires keys <= BoundKeys(s) && ids == set k | k in keys :: s.etw[k].boundId
    ensures |keys| == |ids|
    decreases keys
  {
    if keys != {} {
      var k :| k in keys;
      var rest := set x | x in keys - {k} :: s.etw[x].boundId;
      assert ids == rest + {s.etw[k].boundId};
      forall x | x in keys - {k} ensures s.etw[x].boundId != s.etw[k].boundId {
        assert s.live[s.etw[x].boundId].etwKey == x && s.live[s.etw[k].boundId].etwKey == k;
      }
      BijectionCounts(s, env, keys - {k}, rest);
    } else {
      assert ids == {};
    }
  }

  lemma BoundKeysAndIds(s: State, env: Issued)
    requires LiveIds(s, env) && Binding(s)
    ensures |BoundKeys(s)| == |BoundIds(s)|
  {
    var ids := set k | k in BoundKeys(s) :: s.etw[k].boundId;
    BijectionCounts(s, env, BoundKeys(s), ids);
    forall i | i in BoundIds(s) ensures i in ids {
      assert s.live[i].etwKey in BoundKeys(s);
    }
    assert ids == BoundIds(s);
  }

  // "bound" in the statistics is the number of live objects that have an ETW record.
  lemma BoundIsBothWays(es: seq<Event>, s: State, env: Issued)
    requires Reached(es, s, env)
    ensures |BoundKeys(s)| == |BoundIds(s)|
  {
    ReachedInv(es, s, env);
    hide Reached, LocInv, AccountsInv, Ledger, DriverSizes, LogInv;
    JoinFacts(s, env);
    BoundKeysAndIds(s, env);
  }

  // Every library object is attributed at most once in its life, to a live or to a dead object; re-reports never are.
  lemma AttributedAtMostOnce(es: seq<Event>, s: State, env: Issued)
    requires Reached(es, s, env)
    ensures Read(s.log).bindOnce
    ensures s.stats.binds + s.stats.lateMatches == |Read(s.log).attributed|
    ensures s.stats.binds + s.stats.lateMatches <= s.stats.created - s.stats.rundownDuplicates
  {
    ReachedInv(es, s, env);
    hide Reached, LocInv, AccountsInv, JoinInv, DriverSizes, LocLog, BindLog, KnownIds, Read;
    SubsetSize(Read(s.log).attributed, env.canon);
  }

  lemma {:induction false} SubsetSize(a: set<nat>, b: set<nat>)
    requires a <= b
    ensures |a| <= |b|
    decreases a
  {
    if a != {} {
      var x :| x in a;
      SubsetSize(a - {x}, b - {x});
    }
  }

  // The counters account for every library object: alive, ended, or folded into another; and the records that ever
  // expired are as many as the counter of expiries says.
  lemma LibraryObjectsAccounted(es: seq<Event>, s: State, env: Issued)
    requires Reached(es, s, env)
    ensures s.stats.created == |s.etw| + env.ended + s.stats.rundownDuplicates
    ensures s.stats.pendingExpired == |env.expired| <= s.stats.created - s.stats.rundownDuplicates
  {
    ReachedInv(es, s, env);
    hide Reached, LocInv, AccountsInv, JoinInv, DriverSizes, LogInv;
    SubsetSize(env.expired, env.canon);
  }

  // ---- Expiry -----------------------------------------------------------------------------------

  lemma {:induction false} FairPrefix(es: seq<Event>, m: nat)
    requires m <= |es| && Fair(INITIAL, NOTHING_ISSUED, es)
    ensures Fair(INITIAL, NOTHING_ISSUED, es[..m])
  {
    if m < |es| {
      hide Allowed, Issuing, Run;
      FairPrefix(es[..|es| - 1], m);
      assert es[..|es| - 1][..m] == es[..m];
    } else {
      assert es[..m] == es;
    }
  }

  // In step i of the run the record k stops waiting because its time is over.
  ghost predicate ExpiresIn(es: seq<Event>, i: nat, k: nat) {
    i < |es| && es[i].TickEvent? && k in AllTimedOut(Run(INITIAL, es[..i]).etw, es[i].nowMs)
  }

  ghost function ExpiredBy(es: seq<Event>): set<nat> {
    Issuing(INITIAL, NOTHING_ISSUED, es).expired
  }

  lemma ExpiredGrows(s: State, env: Issued, e: Event)
    ensures JoinRuns.Next(s, env, e).expired == env.expired + if e.TickEvent? then AllTimedOut(s.etw, e.nowMs) else {}
  {
    hide AllTimedOut, Known;
  }

  lemma {:induction false} ExpiredStays(es: seq<Event>, i: nat, j: nat, k: nat)
    requires i < j <= |es| && ExpiresIn(es, i, k)
    ensures k in ExpiredBy(es[..j])
    decreases j
  {
    hide JoinRuns.Next, AllTimedOut, Run;
    assert es[..j][..j - 1] == es[..j - 1];
    ExpiredGrows(Run(INITIAL, es[..j - 1]), Issuing(INITIAL, NOTHING_ISSUED, es[..j - 1]), es[j - 1]);
    if i < j - 1 {
      ExpiredStays(es, i, j - 1, k);
    }
  }

  // No record expires twice.
  lemma ExpiresOnce(es: seq<Event>, i: nat, j: nat, k: nat)
    requires Fair(INITIAL, NOTHING_ISSUED, es) && i < j && ExpiresIn(es, i, k)
    ensures !ExpiresIn(es, j, k)
  {
    hide Fair, Run, Inv;
    if ExpiresIn(es, j, k) {
      FairPrefix(es, j);
      FairPrefix(es, j + 1);
      ExpiredStays(es, i, j, k);
      var s, env := Run(INITIAL, es[..j]), Issuing(INITIAL, NOTHING_ISSUED, es[..j]);
      ReachedInv(es[..j], s, env);
      TimedOutIsNew(s, env, k, es[j].nowMs);
      ForwardClock(es, j);
    }
  }

  lemma ForwardClock(es: seq<Event>, j: nat)
    requires j < |es| && Fair(INITIAL, NOTHING_ISSUED, es[..j + 1]) && es[j].TickEvent?
    ensures Issuing(INITIAL, NOTHING_ISSUED, es[..j]).nowMs <= es[j].nowMs
  {
    assert es[..j + 1][..j] == es[..j];
  }

  // A tick ends the wait of exactly the records that have waited for ten seconds; the others it leaves as they are.
  lemma WaitsTenSeconds(es: seq<Event>, s: State, env: Issued, nowMs: nat, nowTs: nat, k: nat)
    requires Reached(es, s, env) && env.nowMs <= nowMs != 0 && k in s.etw
    ensures var e, t := s.etw[k], Step(s, TickEvent(nowMs, nowTs));
            && k in t.etw
            && if e.pendingSince != 0 && nowMs - e.pendingSince >= 10_000
               then e.boundId == 0 && t.etw[k] == e.(pendingSince := 0, expired := true)
               else t.etw[k] == e
  {
    hide Reached, Inv, Tick, PendingQueue, QueueSorted, AllTimedOut;
    ReachedInv(es, s, env);
    InvQueue(s, env);
    TickCounts(s, env, nowMs, nowTs);
    if s.etw[k].pendingSince != 0 {
      PendingFacts(s, env, k);
    }
    TenSeconds(s.etw[k], nowMs);
    hide Expire;
  }

  lemma TenSeconds(e: EtwObj, nowMs: nat)
    requires e.pendingSince != 0 ==> e.boundId == 0 && e.pendingSince <= nowMs
    ensures Expire(e, nowMs) == if e.pendingSince != 0 && nowMs - e.pendingSince >= 10_000
                                then e.(pendingSince := 0, expired := true) else e
  {
  }

  lemma InvQueue(s: State, env: Issued)
    requires Inv(s, env)
    ensures PendingQueue(s, env) && QueueSorted(s)
  {
    hide Objects, Records, Maximal, LocInv, AccountsInv, Ledger, DriverSizes, LogInv;
  }

  lemma PendingFacts(s: State, env: Issued, k: nat)
    requires PendingQueue(s, env) && k in s.etw && s.etw[k].pendingSince != 0
    ensures s.etw[k].boundId == 0 && s.etw[k].pendingSince <= WaitStamp(env.nowMs)
  {
    assert IsPending(s, k);
  }

  lemma TimedOutIsNew(s: State, env: Issued, k: nat, nowMs: nat)
    requires Inv(s, env) && k in AllTimedOut(s.etw, nowMs)
    ensures k !in env.expired
  {
    hide Objects, Records, Maximal, LocInv, AccountsInv, DriverSizes, LogInv, QueueSorted;
    assert IsPending(s, k);
  }

  // Destroying through any id of a class removes exactly that class of ids.
  lemma DestroyRemovesClass(es: seq<Event>, s: State, env: Issued, abs: int, lib: nat, l: nat)
    requires Reached(es, s, env) && Known(s, lib)
    ensures l in EtwDestroyed(s, abs, lib).ix.alias <==> l in s.ix.alias && s.ix.alias[l] != s.ix.alias[lib]
  {
    hide Reached, Forest;
    ReachedForest(es, s, env);
    ErasedIds(s, abs, lib, l);
    hide EtwDestroyed;
    ClassOf(s, env, l, s.ix.alias[lib]);
  }

  lemma ReachedForest(es: seq<Event>, s: State, env: Issued)
    requires Reached(es, s, env)
    ensures Forest(s, env)
  {
    ReachedInv(es, s, env);
    hide Reached, LocInv, AccountsInv, Ledger, DriverSizes, LogInv, Objects, Binding, Queue, Maximal, Forest;
  }

  lemma ErasedIds(s: State, abs: int, lib: nat, l: nat)
    requires Known(s, lib)
    ensures var key := s.ix.alias[lib];
            l in EtwDestroyed(s, abs, lib).ix.alias <==> l in s.ix.alias && l != key && l !in s.etw[key].aliases
  {
    hide SubDriver;
  }

  lemma ClassOf(s: State, env: Issued, l: nat, k: nat)
    requires Forest(s, env) && k in s.etw
    ensures l in s.ix.alias && s.ix.alias[l] == k <==> l == k || l in s.etw[k].aliases
  {
    hide AddrIndex, AliasesOnce, AddresslessBlank;
    assert LeadsTo(s, l, k) <==> InClass(s, l, k);
  }

  // ---- Totals -----------------------------------------------------------------------------------

  function LocationRow(s: State, h: nat): nat {
    At(s.locBytes, LocCell(h, MemLoc.Unknown)) + At(s.locBytes, LocCell(h, Vram)) + At(s.locBytes, LocCell(h, Sys))
  }

  function AllocationRow(s: State, h: nat): nat {
    At(s.totals.bytes, AllocCell(h, Committed)) + At(s.totals.bytes, AllocCell(h, Placed))
    + At(s.totals.bytes, AllocCell(h, Reserved)) + At(s.totals.bytes, AllocCell(h, HeapObject))
  }

  // Bytes by location, per heap type, add up to the heap-object, committed, placed and reserved columns.
  lemma LocationRowsMatchTotals(es: seq<Event>, s: State, env: Issued, h: nat)
    requires Reached(es, s, env)
    ensures LocationRow(s, h) == AllocationRow(s, h)
  {
    ReachedInv(es, s, env);
    hide Reached, JoinInv, Ledger, DriverSizes, LogInv, LocCache, Reported, DriversInv;
    RowsAreSums(s, h);
    RowsBalance(s.live, h);
  }

  lemma RowsAreSums(s: State, h: nat)
    requires LocTally(s.locBytes, s.live) && TotalsInv(s.totals, s.live)
    ensures LocationRow(s, h) == RowByLoc(s.live, h) && AllocationRow(s, h) == RowByAlloc(s.live, h)
  {
  }

  // ---- The sidecar log --------------------------------------------------------------------------

  function LastLocation(r: Reader, i: nat): MemLoc {
    if i in r.loc then r.loc[i] else MemLoc.Unknown
  }

  function LastBinding(r: Reader, i: nat): nat {
    if i in r.bound then r.bound[i] else 0
  }

  // Reading the log gives the current location and binding of every live object, and no line repeats the previous one.
  lemma SidecarIsFaithful(es: seq<Event>, s: State, env: Issued, i: nat)
    requires Reached(es, s, env) && i in s.live
    ensures LastLocation(Read(s.log), i) == s.live[i].effLoc
    ensures LastBinding(Read(s.log), i) == s.live[i].etwKey
    ensures Read(s.log).locChanges
  {
    ReachedInv(es, s, env);
    hide Reached, JoinInv, LocInv, AccountsInv, Ledger, DriverSizes, AttributionLog, KnownIds, Read;
  }

  // ---- The join is eager ------------------------------------------------------------------------

  // No live object and library object that the address indexes bring together are left unbound if they could bind.
  lemma JoinIsMaximal(es: seq<Event>, s: State, env: Issued, a: nat)
    requires Reached(es, s, env) && a in s.ix.ptrToId && a in s.ix.byAddr
    ensures s.ix.ptrToId[a] in s.live && s.ix.byAddr[a] in s.etw
    ensures !CanBind(s.etw[s.ix.byAddr[a]], s.live[s.ix.ptrToId[a]])
  {
    ReachedInv(es, s, env);
    hide Reached, LocInv, AccountsInv, Ledger, DriverSizes, LogInv, Queue, Binding;
    assert NoMissedBind(s, a);
  }

  // An object names a record exactly if the record names the object; and then they agree on address, type, location and
  // driver size.
  lemma BoundPairsAgree(es: seq<Event>, s: State, env: Issued, i: nat, k: nat)
    requires Reached(es, s, env)
    ensures i in s.live && s.live[i].etwKey == k != 0 <==> k in s.etw && s.etw[k].boundId == i != 0
    ensures k in s.etw && s.etw[k].boundId == i != 0 ==>
              var o, e := s.live[i], s.etw[k];
              && e.address == o.ptr != 0 && Compatible(e.kind, o.kind) && e.orphanTs == 0 && o.ownLoc == e.group
              && (IsDriverType(e.kind) ==> o.driverSize == e.size)
  {
    ReachedInv(es, s, env);
    hide Reached, LocInv, AccountsInv, Ledger, LogInv, Queue, Maximal, Forest, PtrIndex, ChildIndex, ParentsAreHeaps;
  }

  // ---- Folded ids -------------------------------------------------------------------------------

  // One hop leads from any known id to its record, whose own id leads to itself; the ids that lead to a record are its
  // own and its aliases, each listed once; a record without an address has no aliases, no binding and is not waiting.
  lemma AliasesAreFlat(es: seq<Event>, s: State, env: Issued, l: nat, k: nat)
    requires Reached(es, s, env)
    ensures l in s.ix.alias ==> s.ix.alias[l] in s.etw && s.ix.alias[l] in s.ix.alias
                                && s.ix.alias[s.ix.alias[l]] == s.ix.alias[l]
    ensures k in s.etw ==> (l in s.ix.alias && s.ix.alias[l] == k <==> l == k || l in s.etw[k].aliases)
    ensures k in s.etw ==> k !in s.etw[k].aliases && NoRepeats(s.etw[k].aliases)
    ensures k in s.etw && s.etw[k].address == 0 ==>
              s.etw[k].aliases == [] && s.etw[k].boundId == 0 && s.etw[k].pendingSince == 0
  {
    ReachedInv(es, s, env);
    hide Reached, LocInv, AccountsInv, Ledger, DriverSizes, LogInv, Objects, Binding, Queue, Maximal, AddrIndex;
    assert LeadsTo(s, l, k) <==> InClass(s, l, k);
    if l in s.ix.alias {
      var m := s.ix.alias[l];
      assert LeadsTo(s, m, m) <==> InClass(s, m, m);
    }
  }

  // ---- Counters are recounts --------------------------------------------------------------------

  ghost function Ones<K, V>(m: map<nat, V>, w: (K, V) -> nat, c: K): set<nat> {
    set i | i in m && w(c, m[i]) == 1
  }

  // A counter that adds 1 per matching value is the number of matching keys.
  lemma {:induction false} CountIsCardinality<K, V>(m: map<nat, V>, w: (K, V) -> nat, c: K)
    requires forall i | i in m :: w(c, m[i]) <= 1
    ensures Sum(m, w, c) == |Ones(m, w, c)|
    decreases |m|
  {
    if |m| > 0 {
      var i := Pick(m);
      assert m.Keys == (m - {i}).Keys + {i};
      CountIsCardinality(m - {i}, w, c);
      var rest := Ones(m - {i}, w, c);
      if w(c, m[i]) == 1 {
        assert Ones(m, w, c) == rest + {i};
      } else {
        assert Ones(m, w, c) == rest;
      }
    } else {
      assert m.Keys == {};
      assert Ones(m, w, c) == {};
    }
  }

  lemma ReachedAccounts(es: seq<Event>, s: State, env: Issued)
    requires Reached(es, s, env)
    ensures TotalsInv(s.totals, s.live) && DriversInv(s.drivers, s.etw) && LocTally(s.locBytes, s.live)
  {
    ReachedInv(es, s, env);
    hide Reached, JoinInv, Ledger, DriverSizes, LogInv, TotalsInv, DriversInv, LocTally, LocCache, Reported;
  }

  ghost function OfKind(live: map<nat, LiveObject>, kind: ObjectType): set<nat> {
    set i | i in live && live[i].kind == kind
  }

  ghost function InCell(live: map<nat, LiveObject>, c: AllocCell): set<nat> {
    set i | i in live && HeapBucket(live[i].heapType) == c.bucket && live[i].alloc == c.alloc
  }

  // Live objects per type, and per heap type and allocation kind.
  lemma CountsAreExact(es: seq<Event>, s: State, env: Issued, kind: ObjectType, c: AllocCell)
    requires Reached(es, s, env)
    ensures At(s.totals.perType, kind) == |OfKind(s.live, kind)|
    ensures At(s.totals.counts, c) == |InCell(s.live, c)|
  {
    hide Reached, DriversInv, LocTally, HeapBucket, Sum;
    ReachedAccounts(es, s, env);
    CountIsCardinality(s.live, TypeWeight, kind);
    CountIsCardinality(s.live, CountWeight, c);
    assert Ones(s.live, TypeWeight, kind) == OfKind(s.live, kind);
    assert Ones(s.live, CountWeight, c) == InCell(s.live, c);
  }

  // Bytes by heap type and allocation kind, bytes by heap type and location, and the bytes of all live objects.
  lemma BytesAreExact(es: seq<Event>, s: State, env: Issued, c: AllocCell, l: LocCell)
    requires Reached(es, s, env)
    ensures At(s.totals.bytes, c) == Sum(s.live, BytesWeight, c)
    ensures At(s.locBytes, l) == Sum(s.live, LocWeight, l)
    ensures s.totals.liveBytes == Sum(s.live, SizeWeight, ())
  {
    hide Reached, DriversInv, HeapBucket, Sum;
    ReachedAccounts(es, s, env);
  }

  ghost function RecordsOf(etw: map<nat, EtwObj>, kind: Etw.ObjType): set<nat> {
    set k | k in etw && etw[k].kind == kind
  }

  ghost function SizedOf(etw: map<nat, EtwObj>, kind: Etw.ObjType): set<nat> {
    set k | k in etw && etw[k].kind == kind && Sized(etw[k])
  }

  // ETW records per type, those of a driver type that have a size, and the sum of these sizes.
  lemma DriverTablesAreExact(es: seq<Event>, s: State, env: Issued, kind: Etw.ObjType)
    requires Reached(es, s, env)
    ensures At(s.drivers.live, kind) == |RecordsOf(s.etw, kind)|
    ensures At(s.drivers.sized, kind) == |SizedOf(s.etw, kind)|
    ensures At(s.drivers.bytes, kind) == Sum(s.etw, DriverWeight, kind)
  {
    hide Reached, TotalsInv, LocTally, Sized, Sum;
    ReachedAccounts(es, s, env);
    CountIsCardinality(s.etw, KindWeight, kind);
    CountIsCardinality(s.etw, SizedWeight, kind);
    assert Ones(s.etw, KindWeight, kind) == RecordsOf(s.etw, kind);
    assert Ones(s.etw, SizedWeight, kind) == SizedOf(s.etw, kind);
  }

  // No guard against underflow is ever needed: whatever a destruction subtracts is there.
  lemma NothingUnderflows(es: seq<Event>, s: State, env: Issued, i: nat)
    requires Reached(es, s, env) && i in s.live
    ensures var o := s.live[i];
            && At(s.totals.bytes, AllocCellOf(o)) >= o.size && At(s.totals.counts, AllocCellOf(o)) >= 1
            && At(s.totals.perType, o.kind) >= 1 && s.totals.liveBytes >= o.size
            && (!o.alloc.NoAllocation? ==> At(s.locBytes, LocCellOf(o)) >= o.size)
  {
    hide Reached, TotalsInv, DriversInv, Sum, HeapBucket, SubTotals;
    ReachedAccounts(es, s, env);
    SubTotalsInv(s.totals, s.live, i);
    SumRemove(s.live, LocWeight, LocCellOf(s.live[i]), i);
  }

  lemma NoRecordUnderflows(es: seq<Event>, s: State, env: Issued, k: nat)
    requires Reached(es, s, env) && k in s.etw
    ensures var e := s.etw[k];
            && At(s.drivers.live, e.kind) >= 1
            && (Sized(e) ==> At(s.drivers.sized, e.kind) >= 1 && At(s.drivers.bytes, e.kind) >= e.size)
  {
    hide Reached, TotalsInv, DriversInv, LocTally, Sized, SubDriver;
    ReachedAccounts(es, s, env);
    SubDriverInv(s.drivers, s.etw, k);
  }
}
