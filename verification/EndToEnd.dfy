// From the hooked call to the launcher's list: every object that the launcher shows was registered with these fields.

module EndToEnd {
  import opened Wire
  import opened JoinState
  import opened JoinInvariants
  import opened JoinRuns
  import opened JoinTheorems
  import opened ObjectTracker
  import opened ObjectView
  import opened TrackerProtocol

  // The record r was made by a registration of the object at obj with these fields.
  predicate RegisteredAs(r: ObjectInfo, obj: nat, info: ObjectInfo) {
    && r.objectPtr == obj && r.kind == info.kind && r.alloc == info.alloc && r.heapType == info.heapType
    && r.size == info.size && r.parentHeapId == info.parentHeapId
  }

  ghost predicate Registered(acts: seq<Action>, r: ObjectInfo) {
    exists n | 0 <= n < |acts| :: acts[n].Issue? && RegisteredAs(r, acts[n].obj, acts[n].info)
  }

  // All records of the tracker, and those on the pipe.
  ghost predicate IsRecord(t: Tracking, r: ObjectInfo) {
    || (exists i | i in t.starting :: t.starting[i] == r)
    || (exists i | i in t.creating :: t.creating[i] == r)
    || (exists a | a in t.objects :: t.objects[a] == r)
    || CreatedMsg(r) in t.pipe
  }

  // Only the name may differ.
  predicate SameInfo(r: ObjectInfo, q: ObjectInfo) {
    q == r.(name := q.name)
  }

  // Each record of the next state is one of this state, renamed at most, or made by this action.
  lemma RecordsComeFrom(t: Tracking, a: Action, r: ObjectInfo)
    requires Enabled(t, a) && Renames(t) && IsRecord(TrackerProtocol.Next(t, a), r)
    ensures (a.Issue? && RegisteredAs(r, a.obj, a.info)) || exists q :: IsRecord(t, q) && SameInfo(q, r)
  {
    match a
    case Issue(obj, info) =>
      if !RegisteredAs(r, obj, info) { assert IsRecord(t, r); }
    case Publish(id) => assert IsRecord(t, t.starting[id]); assert IsRecord(t, r);
    case EmitCreated(id) => assert IsRecord(t, t.creating[id]); assert IsRecord(t, r);
    case Release(_) => assert IsRecord(t, r);
    case EmitDestroyed(_) => assert IsRecord(t, r);
    case Rename(obj, name) =>
      if obj in t.objects && r == t.objects[obj].(name := name) {
        assert IsRecord(t, t.objects[obj]) && SameInfo(t.objects[obj], r);
      } else {
        assert IsRecord(t, r);
      }
    case EmitRenamed(m) =>
      assert CreatedMsg(r) != m;
      assert IsRecord(t, r);
  }

  lemma RegisteredMore(acts: seq<Action>, a: Action, q: ObjectInfo, r: ObjectInfo)
    requires Registered(acts, q) && SameInfo(q, r)
    ensures Registered(acts + [a], r)
  {
    var n :| 0 <= n < |acts| && acts[n].Issue? && RegisteredAs(q, acts[n].obj, acts[n].info);
    assert (acts + [a])[n] == acts[n];
  }

  // Every record was made by a registration.
  lemma {:induction false} RecordsAreRegistered(acts: seq<Action>, r: ObjectInfo)
    requires CanRun(FRESH, acts) && IsRecord(After(FRESH, acts), r)
    ensures Registered(acts, r)
  {
    if acts != [] {
      var before, a := acts[..|acts| - 1], acts[|acts| - 1];
      RunKeepsSane(before);
      assert acts == before + [a];
      var t := After(FRESH, before);
      RecordsComeFrom(t, a, r);
      hide IsRecord, Sane, Enabled, TrackerProtocol.Next, Renames;
      if a.Issue? && RegisteredAs(r, a.obj, a.info) {
        assert acts[|acts| - 1] == a;
      } else {
        var q :| IsRecord(t, q) && SameInfo(q, r);
        RecordsAreRegistered(before, q);
        RegisteredMore(before, a, q, r);
      }
    }
  }

  // ---- The launcher -----------------------------------------------------------------------------

  // The launcher shows the object as it was registered.
  predicate ShownAs(o: LiveObject, obj: nat, info: ObjectInfo) {
    && o.ptr == obj && o.kind == info.kind && o.alloc == info.alloc && o.heapType == info.heapType
    && o.size == info.size && o.parent == info.parentHeapId
  }

  lemma {:induction false} DeliveredIsBorn(es: seq<Event>, n: nat)
    requires n < |es| && es[n].CreatedEvent?
    ensures Born(es[n].p) in Delivered(es)
  {
    if n < |es| - 1 {
      DeliveredIsBorn(es[..|es| - 1], n);
    }
  }

  lemma {:induction false} BornWasSent(pipe: seq<Msg>, p: CreatedPayload)
    requires Born(p) in OnWire(pipe)
    ensures exists m | m in pipe :: m.CreatedMsg? && p == ToPayload(m.info)
  {
    var before, m := pipe[..|pipe| - 1], pipe[|pipe| - 1];
    if Born(p) in OnWire(before) {
      BornWasSent(before, p);
      var q :| q in before && q.CreatedMsg? && p == ToPayload(q.info);
      assert q in pipe;
    } else {
      assert Born(p) in WireOf(m) && m in pipe;
    }
  }

  // Every object on the launcher's list was registered by the application, with the fields that the launcher shows.
  lemma ShownIsRegistered(acts: seq<Action>, es: seq<Event>, s: State, env: Issued, i: nat)
    requires CanRun(FRESH, acts) && Reached(es, s, env) && i in s.live
    requires Delivered(es) == OnWire(After(FRESH, acts).pipe)
    ensures exists n | 0 <= n < |acts| :: acts[n].Issue? && ShownAs(s.live[i], acts[n].obj, acts[n].info)
  {
    hide CanRun, After, Reached, Delivered, OnWire, Present;
    ObjectsAreMessages(es, s, env);
    PresentWasCreated(es, i);
    var n: nat :| n < |es| && es[n].CreatedEvent? && es[n].p == Present(es)[i] && es[n].p.id == i;
    DeliveredIsBorn(es, n);
    var pipe := After(FRESH, acts).pipe;
    BornWasSent(pipe, es[n].p);
    var m :| m in pipe && m.CreatedMsg? && es[n].p == ToPayload(m.info);
    assert IsRecord(After(FRESH, acts), m.info);
    RecordsAreRegistered(acts, m.info);
    var j :| 0 <= j < |acts| && acts[j].Issue? && RegisteredAs(m.info, acts[j].obj, acts[j].info);
    assert ShownAs(s.live[i], acts[j].obj, acts[j].info);
  }

  // ---- Tracked objects --------------------------------------------------------------------------

  // What is announced of a tracked object is its record, but for the name.
  ghost predicate Announced(t: Tracking) {
    forall a | a in t.objects ::
      var r := t.objects[a];
      && (r.id in t.creating ==> SameInfo(r, t.creating[r.id]))
      && forall m | m in t.pipe && m.CreatedMsg? && m.info.id == r.id :: SameInfo(r, m.info)
  }

  lemma StepAnnounces(t: Tracking, a: Action)
    requires Sane(t) && Announced(t) && Enabled(t, a)
    ensures Announced(TrackerProtocol.Next(t, a))
  {
    if Sends(a) {
      SendAnnounces(t, a);
    } else {
      MapAnnounces(t, a);
    }
  }

  lemma SendAnnounces(t: Tracking, a: Action)
    requires Sane(t) && Announced(t) && Enabled(t, a) && Sends(a)
    ensures Announced(TrackerProtocol.Next(t, a))
  {
    hide AnnouncedOnce, DestroyedIds, MapIds, CreatedIds;
  }

  lemma MapAnnounces(t: Tracking, a: Action)
    requires Sane(t) && Announced(t) && Enabled(t, a) && !Sends(a)
    ensures Announced(TrackerProtocol.Next(t, a))
  {
    hide AnnouncedOnce, Renames, DestroyedIds;
    if a.Publish? {
      forall m | m in t.pipe && m.CreatedMsg? ensures m.info.id in CreatedIds(t.pipe) {}
    }
    hide CreatedIds;
  }

  lemma {:induction false} RunAnnounces(acts: seq<Action>)
    requires CanRun(FRESH, acts)
    ensures Announced(After(FRESH, acts))
  {
    if acts != [] {
      var before := acts[..|acts| - 1];
      RunKeepsSane(before);
      RunAnnounces(before);
      hide Sane, Announced, TrackerProtocol.Next, Enabled;
      StepAnnounces(After(FRESH, before), acts[|acts| - 1]);
    }
  }

  // A tracked object that is on the launcher's list is shown there as the tracker has it.
  lemma TrackedIsShown(acts: seq<Action>, es: seq<Event>, s: State, env: Issued, a: nat)
    requires CanRun(FRESH, acts) && Reached(es, s, env)
    requires Delivered(es) == OnWire(After(FRESH, acts).pipe)
    requires a in After(FRESH, acts).objects && After(FRESH, acts).objects[a].id in s.live
    ensures ShownAs(s.live[After(FRESH, acts).objects[a].id], a, After(FRESH, acts).objects[a])
  {
    hide CanRun, After, Reached, Delivered, OnWire, Present;
    var t := After(FRESH, acts);
    var r := t.objects[a];
    RunKeepsSane(acts);
    RunAnnounces(acts);
    assert r.objectPtr == a by { hide Stages, Renames, AnnouncedOnce; }
    hide Sane;
    ObjectsAreMessages(es, s, env);
    PresentWasCreated(es, r.id);
    var n: nat :| n < |es| && es[n].CreatedEvent? && es[n].p == Present(es)[r.id] && es[n].p.id == r.id;
    DeliveredIsBorn(es, n);
    BornWasSent(t.pipe, es[n].p);
    var m :| m in t.pipe && m.CreatedMsg? && es[n].p == ToPayload(m.info);
    assert SameInfo(r, m.info);
  }
}
