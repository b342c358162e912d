// Reading the sidecar log gives back the launcher's locations and bindings.

module JoinLog {
  import opened JoinState
  import opened JoinSteps
  import opened JoinInvariants
  import opened JoinLocations
  import opened JoinBinding
  import opened SidecarReader

  // ---- Location lines ---------------------------------------------------------------------------

  // The last location line of each live object gives its location; no line means unknown.
  ghost predicate LocLog(live: map<nat, LiveObject>, log: seq<Line>) {
    && Read(log).locChanges
    && Reported(live)
    && forall i | i in live ::
         (i in Read(log).loc <==> live[i].locReported) && (i in Read(log).loc ==> Read(log).loc[i] == live[i].effLoc)
  }

  // The lines from log to log2 are about locations of `ids`, or about nothing the reader follows.
  ghost predicate Quiet(log: seq<Line>, log2: seq<Line>, ids: set<nat>) {
    var r, r2 := Read(log), Read(log2);
    r2 == r.(loc := r2.loc, locChanges := r2.locChanges) && r2.loc.Keys <= r.loc.Keys + ids
  }

  lemma RecomputeLocLogs(s: State, id: nat, ts: nat, force: bool)
    requires id in s.live && LocLog(s.live, s.log) && (force ==> !s.live[id].locReported)
    ensures var t := RecomputeLoc(s, id, ts, force); LocLog(t.live, t.log) && Quiet(s.log, t.log, s.live.Keys)
  {
    hide Read;
    var l := EffLoc(s.live, s.live[id]);
    ReadAppend(s.log, LocationLine(ts, id, l, ViaHeap(s.live, s.live[id])));
  }

  lemma {:induction false} RecomputeEachLogs(s: State, ids: seq<nat>, ts: nat)
    requires LocLog(s.live, s.log)
    ensures var t := RecomputeEach(s, ids, ts); LocLog(t.live, t.log) && Quiet(s.log, t.log, s.live.Keys)
  {
    if ids != [] {
      var n := |ids| - 1;
      var t := RecomputeEach(s, ids[..n], ts);
      RecomputeEachLogs(s, ids[..n], ts);
      hide LocLog, RecomputeLoc;
      if ids[n] in t.live {
        RecomputeLocLogs(t, ids[n], ts, false);
      }
    }
  }

  lemma RelocateLogs(s: State, id: nat, g: MemLoc, ts: nat, force: bool, pick: Order)
    requires id in s.live && LocLog(s.live, s.log) && (force ==> !s.live[id].locReported)
    ensures var t := Relocate(s, id, g, ts, force, pick); LocLog(t.live, t.log) && Quiet(s.log, t.log, s.live.Keys)
  {
    var s1 := s.(live := s.live[id := s.live[id].(ownLoc := g)]);
    assert LocLog(s1.live, s1.log);
    hide LocLog, RecomputeLoc, RecomputeEach;
    RecomputeLocLogs(s1, id, ts, force);
    var s2 := RecomputeLoc(s1, id, ts, force);
    if s.live[id].kind.Heap? && id in s.ix.children {
      RecomputeEachLogs(s2, pick(s.ix.children[id]), ts);
    }
  }

  lemma NewcomerLogs(live: map<nat, LiveObject>, log: seq<Line>, id: nat, o: LiveObject, ts: nat, via: bool)
    requires LocLog(live, log) && id !in live && id !in Read(log).loc
    requires o.locReported == (o.effLoc != MemLoc.Unknown)
    ensures var log2 := if o.locReported then log + [LocationLine(ts, id, o.effLoc, via)] else log;
            LocLog(live[id := o], log2) && Quiet(log, log2, {id})
  {
    hide Read;
    ReadAppend(log, LocationLine(ts, id, o.effLoc, via));
  }

  lemma FirstLocLogs(s: State, id: nat, ts: nat)
    requires id in s.live && LocLog(s.live - {id}, s.log) && id !in Read(s.log).loc && !s.live[id].locReported
    ensures var t := FirstLoc(s, id, ts); LocLog(t.live, t.log) && Quiet(s.log, t.log, {id})
  {
    FirstLocShape(s, id, ts);
    var t := FirstLoc(s, id, ts);
    hide LocLog, Quiet, FirstLoc, AddLoc;
    NewcomerLogs(s.live - {id}, s.log, id, t.live[id], ts, ViaHeap(s.live, s.live[id]));
    assert (s.live - {id})[id := t.live[id]] == t.live;
  }

  // Objects that know no location have no own one.
  ghost predicate Grounded(live: map<nat, LiveObject>) {
    forall i | i in live && live[i].effLoc == MemLoc.Unknown :: live[i].ownLoc == MemLoc.Unknown
  }

  lemma FallBackLogs(s: State, id: nat, ts: nat)
    requires id in s.live && LocLog(s.live, s.log) && Grounded(s.live)
    ensures var t := FallBack(s, id, ts);
            LocLog(t.live, t.log) && Grounded(t.live) && Quiet(s.log, t.log, s.live.Keys)
  {
    hide Read;
    ReadAppend(s.log, LocationLine(ts, id, s.live[id].ownLoc, false));
  }

  lemma {:induction false} FallBackEachLogs(s: State, ids: seq<nat>, ts: nat)
    requires LocLog(s.live, s.log) && Grounded(s.live)
    ensures var t := FallBackEach(s, ids, ts);
            LocLog(t.live, t.log) && Grounded(t.live) && Quiet(s.log, t.log, s.live.Keys)
  {
    if ids != [] {
      var n := |ids| - 1;
      var t := FallBackEach(s, ids[..n], ts);
      FallBackEachLogs(s, ids[..n], ts);
      hide LocLog, Grounded, FallBack;
      if ids[n] in t.live {
        FallBackLogs(t, ids[n], ts);
      }
    }
  }

  // ---- Binding lines ----------------------------------------------------------------------------

  // Replaying the bind and destroy lines gives the binding of every live object.
  ghost predicate BindLog(s: State) {
    forall i | i in s.live ::
      (i in Read(s.log).bound <==> s.live[i].etwKey != 0) &&
      (i in Read(s.log).bound ==> Read(s.log).bound[i] == s.live[i].etwKey)
  }

  // A record that was attributed once will not be attributed again.
  ghost predicate Spent(s: State, k: nat)
    requires k in s.etw
  {
    s.etw[k].address != 0 && (s.etw[k].boundId != 0 || s.etw[k].orphanTs != 0 || !Reachable(s, k))
  }

  ghost predicate AttributionLog(s: State, env: Issued) {
    var r := Read(s.log);
    && r.bindOnce
    && |r.attributed| == s.stats.binds + s.stats.lateMatches
    && r.attributed <= env.canon
    && forall k | k in r.attributed && k in s.etw :: Spent(s, k)
  }

  // No line mentions an id that was not issued.
  ghost predicate KnownIds(s: State, env: Issued) {
    Read(s.log).loc.Keys <= env.ids && Read(s.log).bound.Keys <= env.ids
  }

  ghost predicate LogInv(s: State, env: Issued) {
    LocLog(s.live, s.log) && BindLog(s) && AttributionLog(s, env) && KnownIds(s, env)
  }

  // What the reader learns from binding key to id.
  ghost predicate Announces(log: seq<Line>, log2: seq<Line>, id: nat, key: nat, ids: set<nat>) {
    var r, r2 := Read(log), Read(log2);
    r2 == Reader(r2.loc, r.bound[id := key], r.attributed + {key}, r2.locChanges, r.bindOnce && key !in r.attributed)
    && r2.loc.Keys <= r.loc.Keys + ids
  }

  lemma AttachLogs(s: State, key: nat, id: nat, ts: nat)
    requires key in s.etw && id in s.live && LocLog(s.live, s.log)
    ensures var t := Attach(s, key, id, ts); LocLog(t.live, t.log) && Announces(s.log, t.log, id, key, s.live.Keys)
  {
    hide Read;
    var o, e := s.live[id], s.etw[key];
    ReadAppend(s.log, BindLine(ts, id, key, e.kind, o.ptr, false));
  }

  lemma SetDriverSizeLogs(s: State, id: nat, size: nat, ts: nat)
    requires id in s.live && LocLog(s.live, s.log)
    ensures var t := SetDriverSize(s, id, size, ts); LocLog(t.live, t.log) && Read(t.log) == Read(s.log)
  {
    hide Read;
    ReadAppend(s.log, DriverSizeLine(ts, id, size));
  }

  lemma QuietAfterBind(log: seq<Line>, log2: seq<Line>, log3: seq<Line>, id: nat, key: nat, ids: set<nat>)
    requires Announces(log, log2, id, key, ids) && Quiet(log2, log3, ids)
    ensures Announces(log, log3, id, key, ids)
  {
    hide Read;
  }

  lemma BindLogs(s: State, key: nat, id: nat, ts: nat, pick: Order)
    requires key in s.etw && id in s.live && LocLog(s.live, s.log)
    ensures var t := Bind(s, key, id, ts, pick);
            LocLog(t.live, t.log) && Announces(s.log, t.log, id, key, s.live.Keys)
  {
    var o := s.live[id];
    AttachKeys(s, key, id, ts);
    hide LocLog, Announces, Quiet, Attach, Relocate, SetDriverSize;
    AttachLogs(s, key, id, ts);
    var a := Attach(s, key, id, ts);
    RelocateLogs(a, id, s.etw[key].group, ts, !o.locReported, pick);
    var t := Relocate(a, id, s.etw[key].group, ts, !o.locReported, pick);
    QuietAfterBind(s.log, a.log, t.log, id, key, s.live.Keys);
    SetDriverSizeLogs(t, id, s.etw[key].size, ts);
    SameReading(s.log, t.log, Bind(s, key, id, ts, pick).log, id, key, s.live.Keys);
  }

  lemma AttachKeys(s: State, key: nat, id: nat, ts: nat)
    requires key in s.etw && id in s.live
    ensures var t := Attach(s, key, id, ts);
            t.live.Keys == s.live.Keys && t.live[id].locReported == s.live[id].locReported
  {
  }

  lemma SameReading(log: seq<Line>, log2: seq<Line>, log3: seq<Line>, id: nat, key: nat, ids: set<nat>)
    requires Announces(log, log2, id, key, ids) && Read(log2) == Read(log3)
    ensures Announces(log, log3, id, key, ids)
  {
  }

  lemma BoundBindLog(s: State, t: State, key: nat, id: nat, ids: set<nat>)
    requires BindLog(s) && key in s.etw && key != 0 && id in s.live && BoundTo(s, t, key, id)
    requires Announces(s.log, t.log, id, key, ids)
    ensures BindLog(t)
  {
    hide Read;
  }

  lemma BoundAttribution(s: State, t: State, env: Issued, key: nat, id: nat, ids: set<nat>)
    requires Binding(s) && AddrIndex(s) && MayBind(s, key, id) && BoundTo(s, t, key, id) && id != 0
    requires AttributionLog(s, env) && key in env.canon
    requires Announces(s.log, t.log, id, key, ids) && t.stats == s.stats.(binds := s.stats.binds + 1)
    ensures AttributionLog(t, env)
  {
    BoundSpent(s, t, key, id);
    hide Read, Spent, Binding, AddrIndex;
    assert key !in Read(s.log).attributed;
  }

  lemma BindKeepsLog(s: State, env: Issued, key: nat, id: nat, ts: nat, pick: Order)
    requires LiveIds(s, env) && Binding(s) && AddrIndex(s) && LogInv(s, env) && MayBind(s, key, id) && key in env.canon
    ensures LogInv(Bind(s, key, id, ts, pick), env)
  {
    hide Bind, Read, LocLog, BindLog, AttributionLog, Binding, AddrIndex;
    var t := Bind(s, key, id, ts, pick);
    BindLogs(s, key, id, ts, pick);
    assert 0 !in s.etw && id != 0 by { NoZeroKeys(s, env); }
    BindIsBoundTo(s, key, id, ts, pick);
    BindStats(s, key, id, ts, pick);
    BoundBindLog(s, t, key, id, s.live.Keys);
    BoundAttribution(s, t, env, key, id, s.live.Keys);
  }

  lemma NoZeroKeys(s: State, env: Issued)
    requires LiveIds(s, env) && Binding(s)
    ensures 0 !in s.etw && 0 !in s.live
  {
  }

  lemma BindStats(s: State, key: nat, id: nat, ts: nat, pick: Order)
    requires key in s.etw && id in s.live
    ensures Bind(s, key, id, ts, pick).stats == s.stats.(binds := s.stats.binds + 1)
  {
  }

  // Binding uses up key, and a record that loses its object stays used up: its address belongs to key.
  lemma BoundSpent(s: State, t: State, key: nat, id: nat)
    requires Binding(s) && AddrIndex(s) && MayBind(s, key, id) && BoundTo(s, t, key, id) && id != 0
    ensures Spent(t, key) && !Spent(s, key)
    ensures forall k | k in s.etw && Spent(s, k) :: Spent(t, k)
  {
    forall k ensures Reachable(s, k) <==> Reachable(t, k) {}
    var o := s.live[id].etwKey;
    assert o in s.etw ==> Pair(s.etw[o], s.live[id]) && !Reachable(s, o);
  }
}
