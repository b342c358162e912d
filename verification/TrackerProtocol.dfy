// The tracker under concurrency: each registration, release and renaming is a step under the lock followed, later, by
// a send. Every interleaving of these steps, and what the launcher makes of the pipe.

module TrackerProtocol {
  import opened Basics
  import opened Wire
  import opened JoinState
  import opened JoinSteps
  import opened JoinInvariants
  import opened JoinQueue
  import opened JoinPipe
  import opened JoinRuns
  import opened JoinTheorems
  import opened JoinHistory
  import opened ObjectTracker

  // Registrations between the steps of Register, releases and renamings between their step and their send.
  datatype Tracking = Tracking(
    nextId: nat,
    objects: map<nat, ObjectInfo>,     // address -> record
    starting: map<nat, ObjectInfo>,    // id -> record: has an id, not yet in the map
    creating: map<nat, ObjectInfo>,    // id -> record: in the map, not yet announced
    destroying: set<nat>,              // out of the map, not yet announced
    renaming: multiset<Msg>,
    pipe: seq<Msg>)

  const FRESH := Tracking(1, map[], map[], map[], {}, multiset{}, [])

  datatype Action =
    | Issue(obj: nat, info: ObjectInfo)
    | Publish(id: nat)
    | EmitCreated(id: nat)
    | Release(obj: nat)              // OnReleaseToZero: find and erase
    | EmitDestroyed(id: nat)
    | Rename(obj: nat, name: seq<Unit>)
    | EmitRenamed(m: Msg)

  predicate Enabled(t: Tracking, a: Action) {
    match a
    case Issue(obj, _) => obj != 0
    case Publish(id) => id in t.starting
    case EmitCreated(id) => id in t.creating
    case Release(_) => true
    case EmitDestroyed(id) => id in t.destroying
    case Rename(_, _) => true
    case EmitRenamed(m) => m in t.renaming
  }

  function Next(t: Tracking, a: Action): Tracking
    requires Enabled(t, a)
  {
    match a
    case Issue(obj, info) =>
      t.(nextId := t.nextId + 1, starting := t.starting[t.nextId := Stamped(info, t.nextId, obj)])
    case Publish(id) =>
      var info := t.starting[id];
      t.(objects := t.objects[info.objectPtr := info], starting := t.starting - {id},
         creating := t.creating[id := info])
    case EmitCreated(id) => t.(creating := t.creating - {id}, pipe := t.pipe + [CreatedMsg(t.creating[id])])
    case Release(obj) =>
      if obj !in t.objects then t
      else t.(objects := t.objects - {obj}, destroying := t.destroying + {t.objects[obj].id})
    case EmitDestroyed(id) => t.(destroying := t.destroying - {id}, pipe := t.pipe + [DestroyedMsg(id)])
    case Rename(obj, name) =>
      if obj !in t.objects || t.objects[obj].name == name then t
      else t.(objects := t.objects[obj := t.objects[obj].(name := name)],
              renaming := t.renaming + multiset{RenamedMsg(t.objects[obj].id, name)})
    case EmitRenamed(m) => t.(renaming := t.renaming - multiset{m}, pipe := t.pipe + [m])
  }

  ghost predicate CanRun(t: Tracking, acts: seq<Action>)
    decreases |acts|, 0
  {
    acts == [] || (CanRun(t, acts[..|acts| - 1]) && Enabled(After(t, acts[..|acts| - 1]), acts[|acts| - 1]))
  }

  ghost function After(t: Tracking, acts: seq<Action>): Tracking
    requires CanRun(t, acts)
    decreases |acts|, 1
  {
    if acts == [] then t else Next(After(t, acts[..|acts| - 1]), acts[|acts| - 1])
  }

  predicate Sends(a: Action) {
    a.EmitCreated? || a.EmitDestroyed? || a.EmitRenamed?
  }

  function SentBy(t: Tracking, a: Action): Msg
    requires Enabled(t, a) && Sends(a)
  {
    match a
    case EmitCreated(id) => CreatedMsg(t.creating[id])
    case EmitDestroyed(id) => DestroyedMsg(id)
    case EmitRenamed(m) => m
  }

  // ---- What is on the pipe ----------------------------------------------------------------------

  function CreatedIds(pipe: seq<Msg>): set<nat> {
    set m | m in pipe && m.CreatedMsg? :: m.info.id
  }

  function DestroyedIds(pipe: seq<Msg>): set<nat> {
    set m | m in pipe && m.DestroyedMsg? :: m.id
  }

  ghost predicate AnnouncedOnce(pipe: seq<Msg>) {
    && (forall i, j | 0 <= i < j < |pipe| && pipe[i].CreatedMsg? && pipe[j].CreatedMsg? ::
          pipe[i].info.id != pipe[j].info.id)
    && (forall i, j | 0 <= i < j < |pipe| && pipe[i].DestroyedMsg? && pipe[j].DestroyedMsg? :: pipe[i].id != pipe[j].id)
  }

  function IdsOf(objects: map<nat, ObjectInfo>): set<nat> {
    set a | a in objects :: objects[a].id
  }

  function TrackedIds(t: Tracking): set<nat> {
    IdsOf(t.objects)
  }

  // ---- Every interleaving -----------------------------------------------------------------------

  // An id is in exactly one stage of its creation; what left the map is in exactly one stage of its destruction.
  ghost predicate Stages(t: Tracking) {
    && t.nextId >= 1
    && (forall i | i in t.starting.Keys + t.creating.Keys + CreatedIds(t.pipe) :: 1 <= i < t.nextId)
    && t.starting.Keys !! t.creating.Keys !! CreatedIds(t.pipe)
    && (forall i | i in t.starting :: t.starting[i].id == i && t.starting[i].objectPtr != 0)
    && (forall i | i in t.creating :: t.creating[i].id == i)
    && t.destroying !! DestroyedIds(t.pipe)
    && t.destroying + DestroyedIds(t.pipe) <= t.creating.Keys + CreatedIds(t.pipe)
  }

  // What is in the map has been published and not destroyed, and each record has its own id.
  ghost predicate MapIds(t: Tracking) {
    && (forall a | a in t.objects ::
          t.objects[a].objectPtr == a && t.objects[a].id in t.creating.Keys + CreatedIds(t.pipe)
          && t.objects[a].id !in t.destroying + DestroyedIds(t.pipe))
    && (forall a, b | a in t.objects && b in t.objects && a != b :: t.objects[a].id != t.objects[b].id)
  }

  ghost predicate Renames(t: Tracking) {
    forall m | m in t.renaming :: m.RenamedMsg?
  }

  ghost predicate Sane(t: Tracking) {
    Stages(t) && MapIds(t) && Renames(t) && AnnouncedOnce(t.pipe)
  }

  lemma SendIds(pipe: seq<Msg>, m: Msg)
    ensures CreatedIds(pipe + [m]) == CreatedIds(pipe) + if m.CreatedMsg? then {m.info.id} else {}
    ensures DestroyedIds(pipe + [m]) == DestroyedIds(pipe) + if m.DestroyedMsg? then {m.id} else {}
  {
    assert m in pipe + [m];
  }

  lemma SendOnce(pipe: seq<Msg>, m: Msg)
    requires AnnouncedOnce(pipe)
    requires m.CreatedMsg? ==> m.info.id !in CreatedIds(pipe)
    requires m.DestroyedMsg? ==> m.id !in DestroyedIds(pipe)
    ensures AnnouncedOnce(pipe + [m])
  {
    forall i | 0 <= i < |pipe|
      ensures pipe[i].CreatedMsg? ==> pipe[i].info.id in CreatedIds(pipe)
      ensures pipe[i].DestroyedMsg? ==> pipe[i].id in DestroyedIds(pipe)
    {
      assert pipe[i] in pipe;
    }
  }

  lemma StepKeepsStages(t: Tracking, a: Action)
    requires Sane(t) && Enabled(t, a)
    ensures Stages(Next(t, a))
  {
    if Sends(a) {
      StepKeepsStagesSend(t, a);
    } else {
      StepKeepsStagesMap(t, a);
    }
  }

  lemma StepKeepsStagesSend(t: Tracking, a: Action)
    requires Sane(t) && Enabled(t, a)
    requires Sends(a)
    ensures Stages(Next(t, a))
  {
    SendIds(t.pipe, SentBy(t, a));
    hide CreatedIds, DestroyedIds, AnnouncedOnce;
  }

  lemma StepKeepsStagesMap(t: Tracking, a: Action)
    requires Sane(t) && Enabled(t, a)
    requires !Sends(a)
    ensures Stages(Next(t, a))
  {
    hide CreatedIds, DestroyedIds, AnnouncedOnce;
  }

  lemma StepKeepsMapIds(t: Tracking, a: Action)
    requires Sane(t) && Enabled(t, a)
    ensures MapIds(Next(t, a))
  {
    if Sends(a) {
      StepKeepsMapIdsSend(t, a);
    } else {
      StepKeepsMapIdsMap(t, a);
    }
  }

  lemma StepKeepsMapIdsSend(t: Tracking, a: Action)
    requires Sane(t) && Enabled(t, a)
    requires Sends(a)
    ensures MapIds(Next(t, a))
  {
    SendIds(t.pipe, SentBy(t, a));
    hide CreatedIds, DestroyedIds, AnnouncedOnce;
  }

  lemma StepKeepsMapIdsMap(t: Tracking, a: Action)
    requires Sane(t) && Enabled(t, a)
    requires !Sends(a)
    ensures MapIds(Next(t, a))
  {
    hide CreatedIds, DestroyedIds, AnnouncedOnce;
  }

  lemma StepKeepsSane(t: Tracking, a: Action)
    requires Sane(t) && Enabled(t, a)
    ensures Sane(Next(t, a))
  {
    StepKeepsStages(t, a);
    StepKeepsMapIds(t, a);
    if Sends(a) {
      SendOnce(t.pipe, SentBy(t, a));
    }
    hide CreatedIds, DestroyedIds, MapIds, AnnouncedOnce;
  }

  lemma {:induction false} RunKeepsSane(acts: seq<Action>)
    requires CanRun(FRESH, acts)
    ensures Sane(After(FRESH, acts))
  {
    if acts == [] {
      FreshSane();
    } else {
      RunKeepsSane(acts[..|acts| - 1]);
      hide Sane, Next, Enabled;
      StepKeepsSane(After(FRESH, acts[..|acts| - 1]), acts[|acts| - 1]);
    }
  }

  lemma FreshSane()
    ensures Sane(FRESH)
  {
  }

  // Whatever the threads do, each id is announced at most once as created and at most once as destroyed.
  lemma IdsAnnouncedOnce(acts: seq<Action>)
    requires CanRun(FRESH, acts)
    ensures AnnouncedOnce(After(FRESH, acts).pipe) && 0 !in CreatedIds(After(FRESH, acts).pipe)
    ensures DestroyedIds(After(FRESH, acts).pipe)
            <= CreatedIds(After(FRESH, acts).pipe) + After(FRESH, acts).creating.Keys
  {
    RunKeepsSane(acts);
    hide After, CanRun;
  }

  // ---- What the launcher receives ---------------------------------------------------------------

  // A pipe message, as far as the set of live objects goes.
  datatype Delivery = Born(p: CreatedPayload) | Gone(id: nat)

  function WireOf(m: Msg): seq<Delivery> {
    match m
    case CreatedMsg(info) => [Born(ToPayload(info))]
    case DestroyedMsg(id) => [Gone(id)]
    case RenamedMsg(_, _) => []
  }

  function OnWire(pipe: seq<Msg>): seq<Delivery> {
    if pipe == [] then [] else OnWire(pipe[..|pipe| - 1]) + WireOf(pipe[|pipe| - 1])
  }

  function DeliveryOf(e: Event): seq<Delivery> {
    match e
    case CreatedEvent(_, p, _) => [Born(p)]
    case DestroyedEvent(_, id, _) => [Gone(id)]
    case _ => []
  }

  function Delivered(es: seq<Event>): seq<Delivery> {
    if es == [] then [] else Delivered(es[..|es| - 1]) + DeliveryOf(es[|es| - 1])
  }

  function Turnover(live: set<nat>, d: Delivery): set<nat> {
    match d
    case Born(p) => live + {p.id}
    case Gone(id) => live - {id}
  }

  function Living(ds: seq<Delivery>): set<nat> {
    if ds == [] then {} else Turnover(Living(ds[..|ds| - 1]), ds[|ds| - 1])
  }

  lemma LivingAppend(ds: seq<Delivery>, more: seq<Delivery>)
    requires |more| <= 1
    ensures Living(ds + more) == if more == [] then Living(ds) else Turnover(Living(ds), more[0])
  {
    if more == [] {
      assert ds + more == ds;
    } else {
      assert (ds + more)[..|ds|] == ds;
    }
  }

  function BornIds(ds: seq<Delivery>): set<nat> {
    if ds == [] then {} else
      BornIds(ds[..|ds| - 1]) + if ds[|ds| - 1].Born? then {ds[|ds| - 1].p.id} else {}
  }

  // ---- What the launcher loses track of ---------------------------------------------------------

  // The step takes no other object's entry in the map, and announces no destruction before the creation.
  predicate Harmless(t: Tracking, a: Action)
    requires Enabled(t, a)
  {
    match a
    case Publish(id) => t.starting[id].objectPtr !in t.objects
    case EmitDestroyed(id) => id !in t.creating
    case _ => true
  }

  ghost predicate HarmlessRun(t: Tracking, acts: seq<Action>)
    requires CanRun(t, acts)
    decreases |acts|
  {
    acts == [] || (HarmlessRun(t, acts[..|acts| - 1]) && Harmless(After(t, acts[..|acts| - 1]), acts[|acts| - 1]))
  }

  // The id that no message will ever take off the launcher's list again.
  function LostBy(t: Tracking, a: Action): set<nat>
    requires Enabled(t, a)
  {
    match a
    case Publish(id) =>
      if t.starting[id].objectPtr in t.objects then {t.objects[t.starting[id].objectPtr].id} else {}
    case EmitDestroyed(id) => if id in t.creating then {id} else {}
    case _ => {}
  }

  ghost function Lost(t: Tracking, acts: seq<Action>): set<nat>
    requires CanRun(t, acts)
    decreases |acts|
  {
    if acts == [] then {} else
      Lost(t, acts[..|acts| - 1]) + LostBy(After(t, acts[..|acts| - 1]), acts[|acts| - 1])
  }

  lemma {:induction false} HarmlessLosesNothing(t: Tracking, acts: seq<Action>)
    requires CanRun(t, acts)
    ensures HarmlessRun(t, acts) <==> Lost(t, acts) == {}
  {
    if acts != [] {
      hide After, Enabled;
      HarmlessLosesNothing(t, acts[..|acts| - 1]);
    }
  }

  // Tracked, about to be announced as destroyed or lost = live for the launcher or about to be announced as created.
  ghost predicate Settles(t: Tracking, lost: set<nat>) {
    && TrackedIds(t) + t.destroying + lost == Living(OnWire(t.pipe)) + t.creating.Keys
    && lost !! TrackedIds(t) + t.destroying
    && Living(OnWire(t.pipe)) <= CreatedIds(t.pipe)
  }

  // Each destruction follows its creation.
  ghost predicate CreatedFirst(pipe: seq<Msg>) {
    forall j | 0 <= j < |pipe| && pipe[j].DestroyedMsg? :: pipe[j].id in CreatedIds(pipe[..j])
  }

  lemma SendWire(pipe: seq<Msg>, m: Msg)
    ensures m.CreatedMsg? ==> Living(OnWire(pipe + [m])) == Living(OnWire(pipe)) + {m.info.id}
    ensures m.DestroyedMsg? ==> Living(OnWire(pipe + [m])) == Living(OnWire(pipe)) - {m.id}
    ensures m.RenamedMsg? ==> Living(OnWire(pipe + [m])) == Living(OnWire(pipe))
  {
    assert (pipe + [m])[..|pipe|] == pipe;
    LivingAppend(OnWire(pipe), WireOf(m));
  }

  lemma SendFirst(pipe: seq<Msg>, m: Msg)
    ensures CreatedFirst(pipe + [m]) <==> CreatedFirst(pipe) && (m.DestroyedMsg? ==> m.id in CreatedIds(pipe))
  {
    var more := pipe + [m];
    assert more[..|pipe|] == pipe && more[|pipe|] == m;
    forall j | 0 <= j < |pipe| ensures more[..j] == pipe[..j] && more[j] == pipe[j] {}
    if CreatedFirst(more) {
      forall j | 0 <= j < |pipe| && pipe[j].DestroyedMsg? ensures pipe[j].id in CreatedIds(pipe[..j]) {
        assert more[j].DestroyedMsg?;
      }
    }
  }

  // How the tracked ids change.
  lemma TrackedAfter(t: Tracking, a: Action)
    requires Sane(t) && Enabled(t, a)
    ensures a.Publish? ==> TrackedIds(Next(t, a)) == TrackedIds(t) - LostBy(t, a) + {a.id}
    ensures a.Release? && a.obj in t.objects ==> TrackedIds(Next(t, a)) == TrackedIds(t) - {t.objects[a.obj].id}
    ensures !a.Publish? && !(a.Release? && a.obj in t.objects) ==> TrackedIds(Next(t, a)) == TrackedIds(t)
  {
    hide CreatedIds, DestroyedIds, AnnouncedOnce, Renames, Stages;
    match a
    case Publish(id) =>
      StartingId(t, id);
      IdsStored(t.objects, t.starting[id].objectPtr, t.starting[id]);
    case Release(obj) => if obj in t.objects { IdsRemoved(t.objects, obj); }
    case Rename(obj, name) => if obj in t.objects { IdsRenamed(t.objects, obj, name); }
    case _ =>
  }

  lemma StartingId(t: Tracking, id: nat)
    requires Stages(t) && id in t.starting
    ensures t.starting[id].id == id
  {
  }

  lemma IdsStored(objects: map<nat, ObjectInfo>, a: nat, o: ObjectInfo)
    requires forall b, c | b in objects && c in objects && b != c :: objects[b].id != objects[c].id
    ensures IdsOf(objects[a := o]) == IdsOf(objects) - (if a in objects then {objects[a].id} else {}) + {o.id}
  {
    var stored := objects[a := o];
    forall b | b in objects && b != a ensures objects[b].id in IdsOf(stored) { assert stored[b] == objects[b]; }
    assert stored[a].id == o.id;
  }

  lemma IdsRemoved(objects: map<nat, ObjectInfo>, a: nat)
    requires a in objects && forall b | b in objects && b != a :: objects[b].id != objects[a].id
    ensures IdsOf(objects - {a}) == IdsOf(objects) - {objects[a].id}
  {
    forall b | b in objects && b != a ensures objects[b].id in IdsOf(objects - {a}) {
      assert (objects - {a})[b] == objects[b];
    }
  }

  lemma IdsRenamed(objects: map<nat, ObjectInfo>, a: nat, name: seq<Unit>)
    requires a in objects
    ensures IdsOf(objects[a := objects[a].(name := name)]) == IdsOf(objects)
  {
    var renamed := objects[a := objects[a].(name := name)];
    forall b | b in objects ensures objects[b].id in IdsOf(renamed) { assert renamed[b].id == objects[b].id; }
  }

  lemma StepSettlesSend(t: Tracking, a: Action, lost: set<nat>)
    requires Sane(t) && Settles(t, lost) && Enabled(t, a) && Sends(a)
    ensures Settles(Next(t, a), lost + LostBy(t, a))
  {
    TrackedAfter(t, a);
    TrackedFacts(t);
    SendWire(t.pipe, SentBy(t, a));
    SendIds(t.pipe, SentBy(t, a));
    SettlesSets(t, Next(t, a), a, lost);
  }

  // The two sides change together.
  lemma SettlesSets(t: Tracking, n: Tracking, a: Action, lost: set<nat>)
    requires Sane(t) && Settles(t, lost) && Enabled(t, a) && Sends(a) && n == Next(t, a)
    requires TrackedIds(n) == TrackedIds(t) && TrackedIds(t) !! t.destroying
    requires var m := SentBy(t, a);
             && (m.CreatedMsg? ==> Living(OnWire(n.pipe)) == Living(OnWire(t.pipe)) + {m.info.id})
             && (m.DestroyedMsg? ==> Living(OnWire(n.pipe)) == Living(OnWire(t.pipe)) - {m.id})
             && (m.RenamedMsg? ==> Living(OnWire(n.pipe)) == Living(OnWire(t.pipe)))
             && CreatedIds(n.pipe) == CreatedIds(t.pipe) + (if m.CreatedMsg? then {m.info.id} else {})
    ensures Settles(n, lost + LostBy(t, a))
  {
    hide TrackedIds, Living, OnWire, CreatedIds, DestroyedIds, AnnouncedOnce, MapIds;
    match a
    case EmitCreated(id) => assert n.creating.Keys == t.creating.Keys - {id} && t.creating[id].id == id;
    case EmitDestroyed(id) => assert id in t.creating ==> id !in CreatedIds(t.pipe);
    case _ =>
  }

  lemma StepSettlesMap(t: Tracking, a: Action, lost: set<nat>)
    requires Sane(t) && Settles(t, lost) && Enabled(t, a) && !Sends(a)
    ensures Settles(Next(t, a), lost + LostBy(t, a))
  {
    if a.Publish? {
      PublishSettles(t, a.id, lost);
    } else {
      StillHeld(t, a);
      hide TrackedIds, Living, OnWire, CreatedIds, Sane;
    }
  }

  lemma StillHeld(t: Tracking, a: Action)
    requires Sane(t) && Enabled(t, a) && !Sends(a) && !a.Publish?
    ensures TrackedIds(Next(t, a)) + Next(t, a).destroying == TrackedIds(t) + t.destroying
    ensures Next(t, a).creating == t.creating && Next(t, a).pipe == t.pipe
  {
    TrackedAfter(t, a);
    TrackedFacts(t);
    hide TrackedIds, Sane;
  }

  lemma PublishSettles(t: Tracking, id: nat, lost: set<nat>)
    requires Sane(t) && Settles(t, lost) && id in t.starting
    ensures Settles(Next(t, Publish(id)), lost + LostBy(t, Publish(id)))
  {
    TrackedAfter(t, Publish(id));
    TrackedFacts(t);
    hide TrackedIds, Living, OnWire, CreatedIds, DestroyedIds, AnnouncedOnce, Renames, MapIds;
    assert id !in t.creating.Keys + CreatedIds(t.pipe);
  }

  lemma TrackedFacts(t: Tracking)
    requires MapIds(t)
    ensures TrackedIds(t) !! t.destroying
    ensures forall a | a in t.objects :: t.objects[a].id in TrackedIds(t)
  {
  }

  // Tracked plus leaving plus lost is live plus arriving, in every interleaving.
  lemma {:induction false} RunSettles(acts: seq<Action>)
    requires CanRun(FRESH, acts)
    ensures Settles(After(FRESH, acts), Lost(FRESH, acts))
  {
    if acts == [] {
      FreshSettles();
    } else {
      var before, a := acts[..|acts| - 1], acts[|acts| - 1];
      RunKeepsSane(before);
      RunSettles(before);
      hide Sane, Settles, Next, Enabled, LostBy;
      if Sends(a) {
        StepSettlesSend(After(FRESH, before), a, Lost(FRESH, before));
      } else {
        StepSettlesMap(After(FRESH, before), a, Lost(FRESH, before));
      }
    }
  }

  lemma FreshSettles()
    ensures Settles(FRESH, {})
  {
  }

  // The pipe announces each destruction after its creation exactly if no step announced one too early.
  lemma {:induction false} PromptRun(acts: seq<Action>)
    requires CanRun(FRESH, acts)
    ensures CreatedFirst(After(FRESH, acts).pipe) <==> Prompt(FRESH, acts)
  {
    if acts != [] {
      var before, a := acts[..|acts| - 1], acts[|acts| - 1];
      RunKeepsSane(before);
      PromptRun(before);
      var t := After(FRESH, before);
      if Sends(a) {
        SendFirst(t.pipe, SentBy(t, a));
      }
      hide CreatedFirst, CreatedIds, DestroyedIds, MapIds, AnnouncedOnce;
    } else {
      NothingSent();
    }
  }

  lemma NothingSent()
    ensures CreatedFirst(FRESH.pipe)
  {
  }

  ghost predicate Prompt(t: Tracking, acts: seq<Action>)
    requires CanRun(t, acts)
    decreases |acts|
  {
    acts == [] ||
    (var before, a := acts[..|acts| - 1], acts[|acts| - 1];
     Prompt(t, before) && (a.EmitDestroyed? ==> a.id !in After(t, before).creating))
  }

  lemma {:induction false} HarmlessIsPrompt(t: Tracking, acts: seq<Action>)
    requires CanRun(t, acts) && HarmlessRun(t, acts)
    ensures Prompt(t, acts)
  {
    if acts != [] {
      hide After, Enabled;
      HarmlessIsPrompt(t, acts[..|acts| - 1]);
    }
  }

  // ---- A discipline of the application and the allocator that suffices --------------------------

  // An object is released to zero only after its creation hook returned, and an address is registered again only after
  // the release of its previous object was processed.
  predicate Orderly(t: Tracking, a: Action) {
    match a
    case Issue(obj, _) => obj !in t.objects && forall i | i in t.starting :: t.starting[i].objectPtr != obj
    case Release(obj) => obj in t.objects ==> t.objects[obj].id !in t.creating
    case _ => true
  }

  ghost predicate OrderlyRun(t: Tracking, acts: seq<Action>)
    requires CanRun(t, acts)
    decreases |acts|
  {
    acts == [] || (OrderlyRun(t, acts[..|acts| - 1]) && Orderly(After(t, acts[..|acts| - 1]), acts[|acts| - 1]))
  }

  // Unannounced objects are in the map, and addresses being registered are free.
  ghost predicate Reserved(t: Tracking) {
    && (forall i | i in t.creating ::
          t.creating[i].objectPtr in t.objects && t.objects[t.creating[i].objectPtr].id == i)
    && (forall i | i in t.starting :: t.starting[i].objectPtr !in t.objects)
    && (forall i, j | i in t.starting && j in t.starting && i != j ::
          t.starting[i].objectPtr != t.starting[j].objectPtr)
  }

  lemma StepKeepsReserved(t: Tracking, a: Action)
    requires Sane(t) && Reserved(t) && Enabled(t, a) && Orderly(t, a)
    ensures Reserved(Next(t, a))
  {
    if Sends(a) {
      StepKeepsReservedSend(t, a);
    } else {
      StepKeepsReservedMap(t, a);
    }
  }

  lemma StepKeepsReservedSend(t: Tracking, a: Action)
    requires Sane(t) && Reserved(t) && Enabled(t, a) && Orderly(t, a)
    requires Sends(a)
    ensures Reserved(Next(t, a))
  {
    hide CreatedIds, DestroyedIds, AnnouncedOnce;
  }

  lemma StepKeepsReservedMap(t: Tracking, a: Action)
    requires Sane(t) && Reserved(t) && Enabled(t, a) && Orderly(t, a)
    requires !Sends(a)
    ensures Reserved(Next(t, a))
  {
    hide CreatedIds, DestroyedIds, AnnouncedOnce, Renames;
    if a.Rename? || a.Release? {
      hide Stages;
    } else {
      hide MapIds;
    }
  }

  lemma ReservedIsHarmless(t: Tracking, a: Action)
    requires Sane(t) && Reserved(t) && Enabled(t, a)
    ensures Harmless(t, a)
  {
    hide CreatedIds, DestroyedIds, AnnouncedOnce, Renames, Stages;
  }

  lemma {:induction false} OrderlyIsHarmless(acts: seq<Action>)
    requires CanRun(FRESH, acts) && OrderlyRun(FRESH, acts)
    ensures Reserved(After(FRESH, acts)) && HarmlessRun(FRESH, acts)
  {
    if acts == [] {
      FreshReserved();
    } else {
      var before := acts[..|acts| - 1];
      RunKeepsSane(before);
      OrderlyIsHarmless(before);
      hide Sane, Reserved, Next, Enabled, Orderly, Harmless;
      StepKeepsReserved(After(FRESH, before), acts[|acts| - 1]);
      ReservedIsHarmless(After(FRESH, before), acts[|acts| - 1]);
    }
  }

  lemma FreshReserved()
    ensures Reserved(FRESH)
  {
  }

  // Tracked or about to be announced as destroyed = live for the launcher or about to be announced as created.
  ghost predicate Accounted(t: Tracking) {
    && Reserved(t) && CreatedFirst(t.pipe)
    && TrackedIds(t) + t.destroying == Living(OnWire(t.pipe)) + t.creating.Keys
  }

  lemma RunKeepsAccounted(acts: seq<Action>)
    requires CanRun(FRESH, acts) && OrderlyRun(FRESH, acts)
    ensures Accounted(After(FRESH, acts))
  {
    OrderlyIsHarmless(acts);
    RunSettles(acts);
    HarmlessLosesNothing(FRESH, acts);
    HarmlessIsPrompt(FRESH, acts);
    PromptRun(acts);
    hide Reserved, After, CanRun, OrderlyRun, OnWire, Living, TrackedIds, CreatedFirst;
  }

  // ---- The launcher's side ----------------------------------------------------------------------

  lemma CreatedLive(s: State, env: Issued, ts: nat, p: CreatedPayload, pick: Order)
    requires Inv(s, env) && FreshObject(s, env, p)
    ensures Created(s, ts, p, pick).live.Keys == s.live.Keys + {p.id}
  {
    hide Inv, Created, FreshObject;
    FreshId(s, env, p);
    CreatedPast(s, ts, p, pick);
  }

  lemma DestroyedLive(s: State, env: Issued, ts: nat, id: nat, pick: Order)
    requires Inv(s, env)
    ensures Destroyed(s, ts, id, pick).live.Keys == s.live.Keys - {id}
  {
    hide Inv, Destroyed, Objects, Binding, Bury;
    if id in s.live {
      InvObjects(s, env);
      DestroyedPast(s, env, ts, id, pick);
    } else {
      NoDeath(s, ts, id, pick);
    }
  }

  lemma TickLive(s: State, nowMs: nat, nowTs: nat)
    ensures Tick(s, nowMs, nowTs).live == s.live
  {
    ExpireQueueFrame(s, nowMs);
    PruneFrame(ExpireQueue(s, nowMs), nowTs);
    hide ExpireQueue, Prune;
  }

  lemma StepLive(s: State, env: Issued, e: Event)
    requires Inv(s, env) && Allowed(s, env, e)
    ensures Step(s, e).live.Keys == if DeliveryOf(e) == [] then s.live.Keys else Turnover(s.live.Keys, DeliveryOf(e)[0])
  {
    hide Inv, Created, Destroyed, Tick, FreshObject;
    match e
    case CreatedEvent(ts, p, pick) => CreatedLive(s, env, ts, p, pick);
    case DestroyedEvent(ts, id, pick) => DestroyedLive(s, env, ts, id, pick);
    case TickEvent(nowMs, nowTs) => TickLive(s, nowMs, nowTs);
    case _ =>
      EventKeepsPast(s, e);
      hide Step;
  }

  // The launcher's live objects are what the delivered messages say.
  lemma {:induction false} ModelFollowsPipe(es: seq<Event>, s: State, env: Issued)
    requires Reached(es, s, env)
    ensures s.live.Keys == Living(Delivered(es))
  {
    hide Inv, Step, Allowed, JoinRuns.Next;
    if es != [] {
      var before, e := es[..|es| - 1], es[|es| - 1];
      var s0, env0 := Run(INITIAL, before), Issuing(INITIAL, NOTHING_ISSUED, before);
      ModelFollowsPipe(before, s0, env0);
      ReachedInv(before, s0, env0);
      StepLive(s0, env0, e);
      LivingAppend(Delivered(before), DeliveryOf(e));
    }
  }

  predicate Drained(t: Tracking) {
    t.starting == map[] && t.creating == map[] && t.destroying == {} && t.renaming == multiset{}
  }

  // End to end: once every send went through, the launcher shows what the tracker holds and what was lost; so it agrees
  // with the tracker exactly if every step was harmless.
  lemma LauncherShowsExactly(acts: seq<Action>, es: seq<Event>, s: State, env: Issued)
    requires CanRun(FRESH, acts) && Drained(After(FRESH, acts))
    requires Reached(es, s, env) && Delivered(es) == OnWire(After(FRESH, acts).pipe)
    ensures s.live.Keys == TrackedIds(After(FRESH, acts)) + Lost(FRESH, acts)
    ensures TrackedIds(After(FRESH, acts)) !! Lost(FRESH, acts)
    ensures s.live.Keys == TrackedIds(After(FRESH, acts)) <==> HarmlessRun(FRESH, acts)
  {
    RunSettles(acts);
    HarmlessLosesNothing(FRESH, acts);
    ModelFollowsPipe(es, s, env);
    hide After, CanRun, HarmlessRun, Lost, Reached, Delivered, OnWire, Living, TrackedIds;
  }

  // Under the discipline they agree, and the launcher saw each object created before it was destroyed.
  lemma LauncherShowsTracked(acts: seq<Action>, es: seq<Event>, s: State, env: Issued)
    requires CanRun(FRESH, acts) && OrderlyRun(FRESH, acts) && Drained(After(FRESH, acts))
    requires Reached(es, s, env) && Delivered(es) == OnWire(After(FRESH, acts).pipe)
    ensures s.live.Keys == TrackedIds(After(FRESH, acts))
    ensures CreatedFirst(After(FRESH, acts).pipe)
  {
    OrderlyIsHarmless(acts);
    LauncherShowsExactly(acts, es, s, env);
    RunKeepsAccounted(acts);
    hide After, CanRun, OrderlyRun, Reached, Delivered, OnWire, TrackedIds, Reserved;
  }

  // ---- The launcher's assumptions about ids hold ------------------------------------------------

  lemma IssuedByOne(s: State, env: Issued, e: Event)
    ensures JoinRuns.Next(s, env, e).ids == env.ids + if e.CreatedEvent? then {e.p.id} else {}
  {
    hide Known, AllTimedOut;
  }

  lemma BornByOne(ds: seq<Delivery>, e: Event)
    ensures BornIds(ds + DeliveryOf(e)) == BornIds(ds) + if e.CreatedEvent? then {e.p.id} else {}
  {
    assert DeliveryOf(e) == [] ==> ds + DeliveryOf(e) == ds;
    assert DeliveryOf(e) != [] ==> (ds + DeliveryOf(e))[..|ds|] == ds;
  }

  lemma {:induction false} IssuedAreBorn(es: seq<Event>, s: State, env: Issued)
    requires Reached(es, s, env)
    ensures env.ids == BornIds(Delivered(es))
  {
    hide Inv, Step, Allowed, JoinRuns.Next, BornIds, DeliveryOf;
    if es != [] {
      var before, e := es[..|es| - 1], es[|es| - 1];
      IssuedAreBorn(before, Run(INITIAL, before), Issuing(INITIAL, NOTHING_ISSUED, before));
      IssuedByOne(Run(INITIAL, before), Issuing(INITIAL, NOTHING_ISSUED, before), e);
      BornByOne(Delivered(before), e);
    } else {
      NothingBorn();
    }
  }

  lemma NothingBorn()
    ensures BornIds([]) == {}
  {
  }

  lemma {:induction false} BornOnWire(pipe: seq<Msg>)
    ensures BornIds(OnWire(pipe)) == CreatedIds(pipe)
  {
    if pipe != [] {
      var n := |pipe| - 1;
      BornOnWire(pipe[..n]);
      SendIds(pipe[..n], pipe[n]);
      assert pipe == pipe[..n] + [pipe[n]];
      var ds := OnWire(pipe[..n]);
      assert WireOf(pipe[n]) == [] ==> ds + WireOf(pipe[n]) == ds;
      assert WireOf(pipe[n]) != [] ==> (ds + WireOf(pipe[n]))[..|ds|] == ds;
    }
  }

  // Whatever the threads do, a Created that the launcher is about to read carries a positive id it has not seen.
  lemma NextCreatedIsFresh(acts: seq<Action>, es: seq<Event>, s: State, env: Issued, n: nat)
    requires CanRun(FRESH, acts) && Reached(es, s, env) && n < |After(FRESH, acts).pipe|
    requires Delivered(es) == OnWire(After(FRESH, acts).pipe[..n])
    requires After(FRESH, acts).pipe[n].CreatedMsg?
    ensures var p := ToPayload(After(FRESH, acts).pipe[n].info); p.id != 0 && p.id !in env.ids
  {
    var pipe := After(FRESH, acts).pipe;
    IdsAnnouncedOnce(acts);
    IssuedAreBorn(es, s, env);
    BornOnWire(pipe[..n]);
    assert pipe[n] in pipe;
    AnnouncedAfter(pipe, n);
    hide After, CanRun, Reached, Delivered, OnWire, BornIds;
  }

  lemma AnnouncedAfter(pipe: seq<Msg>, n: nat)
    requires AnnouncedOnce(pipe) && n < |pipe| && pipe[n].CreatedMsg?
    ensures pipe[n].info.id !in CreatedIds(pipe[..n])
  {
    forall m | m in pipe[..n] && m.CreatedMsg? ensures m.info.id != pipe[n].info.id {
      var i :| 0 <= i < n && pipe[i] == m;
    }
  }

  // ---- Two harmful runs --------------------------------------------------------------------------

  lemma Unroll(t: Tracking, acts: seq<Action>, a: Action)
    requires CanRun(t, acts) && Enabled(After(t, acts), a)
    ensures CanRun(t, acts + [a]) && After(t, acts + [a]) == Next(After(t, acts), a)
  {
    assert (acts + [a])[..|acts|] == acts;
  }

  const SOME_INFO := ObjectInfo(0, ObjectType.Resource, Committed, 1, 64, 0, 0, [])

  function Recorded(id: nat): ObjectInfo {
    Stamped(SOME_INFO, id, 16)
  }

  // One object was published and not yet announced.
  const ONE_PUBLISHED: seq<Action> := [Issue(16, SOME_INFO)] + [Publish(1)]

  lemma OnePublished()
    ensures CanRun(FRESH, ONE_PUBLISHED)
    ensures After(FRESH, ONE_PUBLISHED)
            == Tracking(2, map[16 := Recorded(1)], map[], map[1 := Recorded(1)], {}, multiset{}, [])
  {
    Unroll(FRESH, [], Issue(16, SOME_INFO));
    assert [] + [Issue(16, SOME_INFO)] == [Issue(16, SOME_INFO)];
    Unroll(FRESH, [Issue(16, SOME_INFO)], Publish(1));
    assert map[1 := Recorded(1)] - {1} == map[];
  }

  // Released while its creation hook still runs, an object stays on the launcher's list forever.
  lemma ReleasedTooEarly()
    ensures var acts := ONE_PUBLISHED + [Release(16)] + [EmitDestroyed(1)] + [EmitCreated(1)];
            && CanRun(FRESH, acts) && Drained(After(FRESH, acts))
            && TrackedIds(After(FRESH, acts)) == {} && Living(OnWire(After(FRESH, acts).pipe)) == {1}
  {
    var o := Recorded(1);
    OnePublished();
    hide CanRun, After, Living, OnWire;
    Unroll(FRESH, ONE_PUBLISHED, Release(16));
    assert map[16 := o] - {16} == map[];
    Unroll(FRESH, ONE_PUBLISHED + [Release(16)], EmitDestroyed(1));
    Unroll(FRESH, ONE_PUBLISHED + [Release(16)] + [EmitDestroyed(1)], EmitCreated(1));
    assert map[1 := o] - {1} == map[] && {1} - {1} == {};
    SendWire([], DestroyedMsg(1));
    SendWire([] + [DestroyedMsg(1)], CreatedMsg(o));
    NothingLiving();
  }

  lemma NothingLiving()
    ensures Living(OnWire([])) == {}
  {
  }

  // Registered again before the release of its previous object was processed, an address is tracked for the new object
  // only: the old one is never announced as destroyed and stays on the launcher's list.
  lemma RegisteredTooEarly()
    ensures var acts := ONE_PUBLISHED + [EmitCreated(1)] + [Issue(16, SOME_INFO)] + [Publish(2)] + [EmitCreated(2)];
            && CanRun(FRESH, acts) && Drained(After(FRESH, acts))
            && TrackedIds(After(FRESH, acts)) == {2} && Living(OnWire(After(FRESH, acts).pipe)) == {1, 2}
  {
    OnePublished();
    hide CanRun, After, Living, OnWire;
    var a1 := ONE_PUBLISHED + [EmitCreated(1)];
    Unroll(FRESH, ONE_PUBLISHED, EmitCreated(1));
    assert map[1 := Recorded(1)] - {1} == map[];
    Unroll(FRESH, a1, Issue(16, SOME_INFO));
    Unroll(FRESH, a1 + [Issue(16, SOME_INFO)], Publish(2));
    var t := After(FRESH, a1 + [Issue(16, SOME_INFO)] + [Publish(2)]);
    assert t.objects == map[16 := Recorded(2)] && t.starting == map[] && t.creating == map[2 := Recorded(2)];
    Unroll(FRESH, a1 + [Issue(16, SOME_INFO)] + [Publish(2)], EmitCreated(2));
    assert map[2 := Recorded(2)] - {2} == map[];
    SendWire([], CreatedMsg(Recorded(1)));
    SendWire([] + [CreatedMsg(Recorded(1))], CreatedMsg(Recorded(2)));
    NothingLiving();
    assert map[16 := Recorded(2)][16].id == 2;
  }
}
