// Which lines the steps of the join append to the sidecar.

module SidecarLines {
  import opened Wire
  import opened JoinState
  import opened JoinSteps

  // The second log continues the first.
  ghost predicate Appends(log: seq<Line>, log2: seq<Line>) {
    |log| <= |log2| && log2[..|log|] == log
  }

  // Lines about the join itself; every other line reports something that was observed.
  predicate JoinLine(l: Line) {
    l.LocationLine? || l.BindLine? || l.DriverSizeLine?
  }

  // All new lines are about the join, and stamped ts.
  ghost predicate AppendsJoin(log: seq<Line>, log2: seq<Line>, ts: nat) {
    Appends(log, log2) && forall i | |log| <= i < |log2| :: JoinLine(log2[i]) && log2[i].ts == ts
  }

  // None of them is about a driver size.
  ghost predicate AppendsNoSize(log: seq<Line>, log2: seq<Line>, ts: nat) {
    AppendsJoin(log, log2, ts) && forall i | |log| <= i < |log2| :: !log2[i].DriverSizeLine?
  }

  lemma AppendsTrans(log: seq<Line>, log2: seq<Line>, log3: seq<Line>, ts: nat)
    requires Appends(log, log2) && Appends(log2, log3)
    ensures Appends(log, log3) && forall i | 0 <= i < |log2| :: log3[i] == log2[i]
    ensures AppendsJoin(log, log2, ts) && AppendsJoin(log2, log3, ts) ==> AppendsJoin(log, log3, ts)
    ensures AppendsNoSize(log, log2, ts) && AppendsNoSize(log2, log3, ts) ==> AppendsNoSize(log, log3, ts)
  {
    assert log3[..|log2|][..|log|] == log3[..|log|];
    assert forall i | 0 <= i < |log2| :: log3[i] == log3[..|log2|][i];
  }

  // A location line tells the location that the object then has, and whether it is its heap's.
  lemma LocationLineTells(s: State, id: nat, ts: nat, force: bool)
    requires id in s.live
    ensures var o, t := s.live[id], RecomputeLoc(s, id, ts, force);
            var viaHeap := o.alloc.Placed? && o.parent != 0 && o.parent in s.live && s.live[o.parent].ownLoc != Unknown;
            var l := if viaHeap then s.live[o.parent].ownLoc else o.ownLoc;
            && id in t.live && t.live[id].effLoc == l
            && t.log == if l != o.effLoc || force || (l != Unknown && !o.locReported)
                        then s.log + [LocationLine(ts, id, l, viaHeap)] else s.log
  {
    hide AddLoc, SubLoc;
  }

  lemma RecomputeAppends(s: State, id: nat, ts: nat, force: bool)
    requires id in s.live
    ensures AppendsNoSize(s.log, RecomputeLoc(s, id, ts, force).log, ts)
  {
    hide AddLoc, SubLoc, EffLoc;
  }

  lemma {:induction false} EachAppends(s: State, ids: seq<nat>, ts: nat)
    ensures AppendsNoSize(s.log, RecomputeEach(s, ids, ts).log, ts)
  {
    if ids != [] {
      var n := |ids| - 1;
      EachAppends(s, ids[..n], ts);
      var t := RecomputeEach(s, ids[..n], ts);
      hide RecomputeLoc;
      if ids[n] in t.live {
        RecomputeAppends(t, ids[n], ts, false);
        AppendsTrans(s.log, t.log, RecomputeLoc(t, ids[n], ts, false).log, ts);
      }
    }
  }

  lemma RelocateAppends(s: State, id: nat, g: MemLoc, ts: nat, force: bool, pick: Order)
    requires id in s.live
    ensures AppendsNoSize(s.log, Relocate(s, id, g, ts, force, pick).log, ts)
  {
    var u := s.(live := s.live[id := s.live[id].(ownLoc := g)]);
    RecomputeAppends(u, id, ts, force);
    hide RecomputeLoc, RecomputeEach;
    var t := RecomputeLoc(u, id, ts, force);
    if s.live[id].kind.Heap? && id in t.ix.children {
      EachAppends(t, pick(t.ix.children[id]), ts);
      AppendsTrans(s.log, t.log, RecomputeEach(t, pick(t.ix.children[id]), ts).log, ts);
    }
  }

  // A bind first writes its own line, last the driver size if there is one.
  lemma BindAppends(s: State, key: nat, id: nat, ts: nat, pick: Order)
    requires key in s.etw && id in s.live
    ensures var o, e, t := s.live[id], s.etw[key], Bind(s, key, id, ts, pick);
            && Appends(s.log + [BindLine(ts, id, key, e.kind, o.ptr, false)], t.log) && AppendsJoin(s.log, t.log, ts)
            && if IsDriverType(e.kind) && e.size != 0
               then t.log != [] && t.log[|t.log| - 1] == DriverSizeLine(ts, id, e.size)
                    && AppendsNoSize(s.log, t.log[..|t.log| - 1], ts)
               else AppendsNoSize(s.log, t.log, ts)
  {
    var o, e := s.live[id], s.etw[key];
    var a := Attach(s, key, id, ts);
    var b := Relocate(a, id, e.group, ts, !o.locReported, pick);
    RelocateAppends(a, id, e.group, ts, !o.locReported, pick);
    hide Relocate, Displaced, IsDriverType, Attach;
    assert a.log == s.log + [BindLine(ts, id, key, e.kind, o.ptr, false)] by { AttachLine(s, key, id, ts); }
    assert AppendsNoSize(s.log, a.log, ts);
    AppendsTrans(s.log, a.log, b.log, ts);
    var t := Bind(s, key, id, ts, pick);
    if t.log != b.log {
      assert t.log == b.log + [DriverSizeLine(ts, id, e.size)];
      AppendsTrans(a.log, b.log, t.log, ts);
      AppendsTrans(s.log, b.log, t.log, ts);
      assert t.log[..|t.log| - 1] == b.log;
    }
  }

  lemma AttachLine(s: State, key: nat, id: nat, ts: nat)
    requires key in s.etw && id in s.live
    ensures Attach(s, key, id, ts).log == s.log + [BindLine(ts, id, key, s.etw[key].kind, s.live[id].ptr, false)]
  {
  }

  lemma TryBindAppends(s: State, key: nat, ts: nat, nowMs: nat, pick: Order)
    ensures AppendsJoin(s.log, TryBind(s, key, ts, nowMs, pick).log, ts)
  {
    hide Bind, CanBind, FirstMatch, DeadAt;
    if key in s.etw && !Settled(s.etw[key]) && HasLiveMatch(s, s.etw[key]) {
      BindAppends(s, key, s.ix.ptrToId[s.etw[key].address], ts, pick);
    }
  }

  lemma ApplyGroupAppends(s: State, key: nat, g: MemLoc, ts: nat, pick: Order)
    requires key in s.etw
    ensures AppendsNoSize(s.log, ApplyGroup(s, key, g, ts, pick).log, ts)
  {
    var e := s.etw[key];
    if e.boundId != 0 && e.boundId in s.live {
      RelocateAppends(s.(etw := s.etw[key := e.(group := g)]), e.boundId, g, ts, false, pick);
    }
    hide Relocate;
  }

  lemma ApplySizeAppends(s: State, key: nat, size: nat, ts: nat)
    requires key in s.etw
    ensures AppendsJoin(s.log, ApplySize(s, key, size, ts).log, ts)
  {
    hide AddDriver, SubDriver;
  }

  lemma FoldAppends(s: State, key: nat, into: nat, pick: Order)
    requires key in s.etw && into in s.etw && key != into
    ensures AppendsJoin(s.log, Fold(s, key, into, pick).log, s.etw[key].createdTs)
  {
    var c, e := CountDuplicate(s), s.etw[key];
    ApplySizeAppends(c, into, e.size, e.createdTs);
    hide ApplySize, ApplyGroup, SubDriver;
    var t := if e.size != 0 then ApplySize(c, into, e.size, e.createdTs) else c;
    ApplyGroupAppends(t, into, e.group, e.createdTs, pick);
    AppendsTrans(c.log, t.log, ApplyGroup(t, into, e.group, e.createdTs, pick).log, s.etw[key].createdTs);
  }

  lemma EnterAppends(s: State, ts: nat, p: CreatedPayload)
    ensures var t := Enter(Admit(s, p), p.id, ts); p.id in t.live && AppendsNoSize(s.log, t.log, ts)
  {
    var u := IndexParent(IndexPtr(Admit(s, p), p.id), p.id);
    EnterStarts(s, p);
    hide IndexPtr, IndexParent, Admit;
    FirstLocAppends(u, p.id, ts);
    hide FirstLoc;
  }

  lemma EnterStarts(s: State, p: CreatedPayload)
    ensures var u := IndexParent(IndexPtr(Admit(s, p), p.id), p.id); p.id in u.live && u.log == s.log
  {
    hide AddTotals;
  }

  lemma FirstLocAppends(s: State, id: nat, ts: nat)
    requires id in s.live
    ensures var t := FirstLoc(s, id, ts); id in t.live && AppendsNoSize(s.log, t.log, ts)
  {
    var o := s.live[id];
    var placed := o.(effLoc := EffLoc(s.live, o));
    RecomputeAppends(s.(live := s.live[id := placed], locBytes := AddLoc(s.locBytes, placed)), id, ts, true);
    hide RecomputeLoc, AddLoc;
  }

  lemma CreatedAppends(s: State, ts: nat, p: CreatedPayload, pick: Order)
    ensures AppendsJoin(s.log, Created(s, ts, p, pick).log, ts)
  {
    EnterAppends(s, ts, p);
    var t := Enter(Admit(s, p), p.id, ts);
    hide Enter, Bind, CanBind;
    var o := t.live[p.id];
    if o.ptr != 0 && o.ptr in t.ix.byAddr && t.ix.byAddr[o.ptr] in t.etw && CanBind(t.etw[t.ix.byAddr[o.ptr]], o) {
      BindAppends(t, t.ix.byAddr[o.ptr], p.id, ts, pick);
      AppendsTrans(s.log, t.log, Bind(t, t.ix.byAddr[o.ptr], p.id, ts, pick).log, ts);
    }
  }

  lemma FallBackOneAppends(s: State, id: nat, ts: nat)
    requires id in s.live
    ensures AppendsNoSize(s.log, FallBack(s, id, ts).log, ts)
  {
    hide AddLoc, SubLoc;
  }

  lemma {:induction false} FallBackAppends(s: State, ids: seq<nat>, ts: nat)
    ensures AppendsNoSize(s.log, FallBackEach(s, ids, ts).log, ts)
  {
    hide FallBack;
    if ids != [] {
      var n := |ids| - 1;
      FallBackAppends(s, ids[..n], ts);
      var t := FallBackEach(s, ids[..n], ts);
      if ids[n] in t.live {
        FallBackOneAppends(t, ids[n], ts);
        AppendsTrans(s.log, t.log, FallBack(t, ids[n], ts).log, ts);
      }
    }
  }

  lemma DestroyedAppends(s: State, ts: nat, id: nat, pick: Order)
    ensures AppendsNoSize(s.log, Destroyed(s, ts, id, pick).log, ts)
  {
    if id in s.live {
      var t := Detach(s, id, ts);
      DetachWritesNothing(s, id, ts);
      hide Detach, FallBackEach, SubTotals;
      if t.live[id].kind.Heap? && id in t.ix.children {
        FallBackAppends(t.(ix := t.ix.(children := t.ix.children - {id})), pick(t.ix.children[id]), ts);
      }
    }
  }

  lemma DetachWritesNothing(s: State, id: nat, ts: nat)
    requires id in s.live
    ensures id in Detach(s, id, ts).live && Detach(s, id, ts).log == s.log
  {
    hide SubLoc, DeadAt, IsPlaced;
  }

  // ---- What was reported ------------------------------------------------------------------------

  // The lines that are not about the join.
  function Reports(log: seq<Line>): seq<Line> {
    if log == [] then [] else
      Reports(log[..|log| - 1]) + if JoinLine(log[|log| - 1]) then [] else [log[|log| - 1]]
  }

  lemma ReportsMore(log: seq<Line>, l: Line)
    ensures Reports(log + [l]) == Reports(log) + if JoinLine(l) then [] else [l]
  {
    assert (log + [l])[..|log|] == log;
  }

  lemma {:induction false} ReportsKept(log: seq<Line>, log2: seq<Line>, ts: nat)
    requires AppendsJoin(log, log2, ts)
    ensures Reports(log2) == Reports(log)
  {
    if |log2| > |log| {
      var shorter := log2[..|log2| - 1];
      assert shorter[..|log|] == log2[..|log|];
      assert forall i | 0 <= i < |shorter| :: shorter[i] == log2[i];
      ReportsKept(log, shorter, ts);
    } else {
      assert log2 == log2[..|log|];
    }
  }

  // ---- Driver sizes, as a reader of the log has them --------------------------------------------

  function SizesRead(log: seq<Line>): map<nat, nat> {
    if log == [] then map[] else
      var before, l := SizesRead(log[..|log| - 1]), log[|log| - 1];
      if l.DriverSizeLine? then before[l.id := l.bytes] else before
  }

  lemma SizesMore(log: seq<Line>, l: Line)
    ensures SizesRead(log + [l]) == if l.DriverSizeLine? then SizesRead(log)[l.id := l.bytes] else SizesRead(log)
  {
    assert (log + [l])[..|log|] == log;
  }

  lemma {:induction false} SizesKept(log: seq<Line>, log2: seq<Line>)
    requires Appends(log, log2) && forall i | |log| <= i < |log2| :: !log2[i].DriverSizeLine?
    ensures SizesRead(log2) == SizesRead(log)
  {
    if |log2| > |log| {
      var shorter := log2[..|log2| - 1];
      assert shorter[..|log|] == log2[..|log|];
      assert forall i | 0 <= i < |shorter| :: shorter[i] == log2[i];
      SizesKept(log, shorter);
    } else {
      assert log2 == log2[..|log|];
    }
  }
}
