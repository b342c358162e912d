// Which events the process-teardown filter lets through, over every run.

module TeardownFilter {
  import opened Wire
  import opened Timeline
  import opened ChildWatch
  import opened JoinState
  import opened JoinSteps
  import opened JoinRuns
  import Etw

  // Group changes, residency operations and counter samples with a stamp go through the filter.
  predicate IsStamped(e: Event) {
    e.EtwGroupEvent? || e.EtwResidencyEvent? || (e.EtwCounterEvent? && e.abs > 0)
  }

  function Stamp(s: State, e: Event): nat
    requires IsStamped(e)
  {
    ConvTs(s.tb, e.abs)
  }

  // The step looks at the child: a poll always, a stamped event if it is newer than the last sample.
  predicate Looks(s: State, e: Event) {
    e.PollEvent? || (IsStamped(e) && Stamp(s, e) > s.watch.aliveTs)
  }

  predicate MayLook(e: Event) {
    e.PollEvent? || IsStamped(e)
  }

  function WatchAfter(s: State, e: Event): Watch {
    if Looks(s, e) then PollChild(s.watch, e.probe)
    else if e.ChildExitEvent? then SetChildExit(s.watch, e.ts)
    else s.watch
  }

  // The event is not applied.
  predicate Dropped(s: State, e: Event)
    requires IsStamped(e)
  {
    Ignored(WatchAfter(s, e), Stamp(s, e))
  }

  lemma FilteredWatch(s: State, ts: nat, p: Probe)
    ensures var t := Filtered(s, ts, p);
            && t == s.(watch := t.watch, log := t.log)
            && t.watch == if ts > s.watch.aliveTs then PollChild(s.watch, p) else s.watch
  {
  }

  // A dropped event changes only the watch, the count of dropped events and, if it finds the child exiting, the log.
  lemma DroppedChangesNothing(s: State, e: Event)
    requires IsStamped(e) && Dropped(s, e)
    ensures var t := Step(s, e);
            && t == s.(watch := t.watch, log := t.log, stats := t.stats)
            && t.stats == s.stats.(postExitIgnored := t.stats.postExitIgnored)
  {
    hide PollChild, Filtered, Ignored, ApplyGroup, ConvTs;
    FilteredWatch(s, Stamp(s, e), e.probe);
  }

  // ---- The rest of a step leaves the watch alone ------------------------------------------------

  lemma TryBindWatch(s: State, key: nat, ts: nat, nowMs: nat, pick: Order)
    ensures TryBind(s, key, ts, nowMs, pick).watch == s.watch
  {
    hide Relocate, DeadAt, FirstMatch, CanBind;
  }

  lemma CreatedWatch(s: State, ts: nat, p: CreatedPayload, pick: Order)
    ensures Created(s, ts, p, pick).watch == s.watch
  {
    hide Relocate, FirstLoc, AddTotals, DeadAt, IsPlaced, NewObject, CanBind;
  }

  lemma DestroyedWatch(s: State, ts: nat, id: nat, pick: Order)
    ensures Destroyed(s, ts, id, pick).watch == s.watch
  {
    hide SubTotals, SubLoc, FallBackEach, DeadAt, IsPlaced;
  }

  lemma AbsorbWatch(s: State, e: EtwObj, into: nat, pick: Order)
    requires into in s.etw
    ensures Absorb(s, e, into, pick).watch == s.watch
  {
    hide Relocate, AddDriver, SubDriver;
  }

  lemma AddressWatch(s: State, lib: nat, addr: nat, nowMs: nat, pick: Order)
    ensures EtwAddress(s, lib, addr, nowMs, pick).watch == s.watch
  {
    if addr != 0 && Known(s, lib) && s.etw[s.ix.alias[lib]].address == 0 {
      var key := s.ix.alias[lib];
      var ts := s.etw[key].createdTs;
      hide TryBind, SubDriver, Absorb;
      if IsReReport(s, key, addr) {
        AbsorbWatch(CountDuplicate(s), s.etw[key], s.ix.byAddr[addr], pick);
        TryBindWatch(Fold(s, key, s.ix.byAddr[addr], pick), s.ix.byAddr[addr], ts, nowMs, pick);
      } else {
        TryBindWatch(SetAddress(s, key, addr), key, ts, nowMs, pick);
      }
    }
  }

  lemma EtwDestroyedWatch(s: State, abs: int, lib: nat)
    ensures EtwDestroyed(s, abs, lib).watch == s.watch
  {
    hide EtwDestroyedIndexes, SubDriver, ConvTs;
  }

  lemma GroupWatch(s: State, abs: int, lib: nat, group: Etw.Group, p: Probe, pick: Order)
    ensures var ts := ConvTs(s.tb, abs);
            EtwGroup(s, abs, lib, group, p, pick).watch
            == if ts > s.watch.aliveTs then PollChild(s.watch, p) else s.watch
  {
    FilteredWatch(s, ConvTs(s.tb, abs), p);
    hide Relocate, Filtered, PollChild, ConvTs, Ignored, FromGroup;
  }

  lemma {:induction false} ExpireWatch(s: State, nowMs: nat)
    ensures ExpireQueue(s, nowMs).watch == s.watch
    decreases |s.ix.pendingQ|
  {
    if s.ix.pendingQ != [] {
      if Stale(s, s.ix.pendingQ[0]) {
        ExpireWatch(Dequeue(s), nowMs);
      } else if Waited(nowMs, s.etw[s.ix.pendingQ[0]].pendingSince) >= PENDING_TIMEOUT_MS {
        ExpireWatch(Dequeue(ExpireFirst(s)), nowMs);
      }
    }
  }

  lemma {:induction false} PruneWatch(s: State, nowTs: nat)
    ensures Prune(s, nowTs).watch == s.watch
    decreases |s.ix.hist|
  {
    if s.ix.hist != [] && nowTs > DESTROY_HISTORY_NS && s.ix.hist[0].0 < nowTs - DESTROY_HISTORY_NS {
      PruneWatch(s.(ix := s.ix.(dead := DropAt(s.ix.dead, s.ix.hist[0].1, nowTs - DESTROY_HISTORY_NS),
                                hist := s.ix.hist[1..])), nowTs);
    }
  }

  lemma StepWatch(s: State, e: Event)
    ensures Step(s, e).watch == WatchAfter(s, e)
  {
    hide PollChild, Ignored, ConvTs, Created, Destroyed, EtwAddress, EtwDestroyed, EtwGroup, Tick, Filtered, ApplySize,
         CountResidency;
    match e
    case CreatedEvent(ts, p, pick) => CreatedWatch(s, ts, p, pick);
    case DestroyedEvent(ts, id, pick) => DestroyedWatch(s, ts, id, pick);
    case EtwAddressEvent(lib, addr, nowMs, pick) => AddressWatch(s, lib, addr, nowMs, pick);
    case EtwDestroyedEvent(abs, lib) => EtwDestroyedWatch(s, abs, lib);
    case EtwSizeEvent(abs, lib, size) => SizeWatch(s, lib, size, ConvTs(s.tb, abs));
    case EtwGroupEvent(abs, lib, group, p, pick) => GroupWatch(s, abs, lib, group, p, pick);
    case EtwResidencyEvent(abs, lib, op, p) => FilteredWatch(s, ConvTs(s.tb, abs), p);
    case EtwCounterEvent(abs, counter, kind, mb, p) => FilteredWatch(s, ConvTs(s.tb, abs), p);
    case TickEvent(nowMs, nowTs) => TickWatch(s, nowMs, nowTs);
    case _ =>
  }

  // A stamped event looks at the child exactly if it is newer than the last sample; the look reads the clock first, and
  // the first one that finds the child exiting takes the last sample as the cutoff.
  lemma LooksWhenNewer(s: State, e: Event)
    requires IsStamped(e)
    ensures var w, t := s.watch, Step(s, e).watch;
            if Stamp(s, e) <= w.aliveTs || w.exiting || !e.probe.hasHandle || e.probe.child.QueryFailed? then t == w
            else if e.probe.child.Running? then t == w.(aliveTs := e.probe.nowTs)
            else t.exiting && t.aliveTs == w.aliveTs && t.exitCutoff == After(w.aliveTs) && t.exitTs == w.exitTs
  {
    StepWatch(s, e);
    hide Step, Stamp;
  }

  lemma TickWatch(s: State, nowMs: nat, nowTs: nat)
    ensures Tick(s, nowMs, nowTs).watch == s.watch
  {
    ExpireWatch(s, nowMs);
    PruneWatch(ExpireQueue(s, nowMs), nowTs);
    hide ExpireQueue, Prune;
  }

  lemma SizeWatch(s: State, lib: nat, size: nat, ts: nat)
    ensures Known(s, lib) ==> ApplySize(s, s.ix.alias[lib], size, ts).watch == s.watch
  {
    hide AddDriver, SubDriver;
  }

  // ---- Safety -----------------------------------------------------------------------------------

  // The child runs until `death`, every query of its handle succeeds, and no event is processed before its stamp.
  ghost predicate Truthful(s: State, e: Event, death: nat) {
    MayLook(e) ==>
      && e.probe.hasHandle && !e.probe.child.QueryFailed?
      && (e.probe.child.Running? <==> e.probe.nowTs < death)
      && (IsStamped(e) ==> Stamp(s, e) <= e.probe.nowTs)
  }

  ghost predicate TruthfulRun(s: State, es: seq<Event>, death: nat) {
    es == [] || (TruthfulRun(s, es[..|es| - 1], death) && Truthful(Run(s, es[..|es| - 1]), es[|es| - 1], death))
  }

  // The last sample that found the child running, and so the cutoff, lie before the death.
  ghost predicate BeforeDeath(w: Watch, death: nat) {
    w.aliveTs < death && w.exitCutoff == if w.exiting then After(w.aliveTs) else Never
  }

  lemma WatchStepBeforeDeath(s: State, e: Event, death: nat)
    requires BeforeDeath(s.watch, death) && Truthful(s, e, death)
    ensures BeforeDeath(WatchAfter(s, e), death)
  {
    hide Stamp;
  }

  lemma {:induction false} RunBeforeDeath(es: seq<Event>, death: nat)
    requires death > 0 && TruthfulRun(INITIAL, es, death)
    ensures BeforeDeath(Run(INITIAL, es).watch, death)
  {
    if es != [] {
      var before := es[..|es| - 1];
      RunBeforeDeath(before, death);
      hide Step, Truthful, WatchAfter, BeforeDeath;
      WatchStepBeforeDeath(Run(INITIAL, before), es[|es| - 1], death);
      StepWatch(Run(INITIAL, before), es[|es| - 1]);
    }
  }

  // Nothing stamped at or after the child's death is ever applied, however late its death is noticed.
  lemma TeardownNeverApplied(es: seq<Event>, e: Event, death: nat)
    requires death > 0 && TruthfulRun(INITIAL, es, death) && Truthful(Run(INITIAL, es), e, death)
    requires IsStamped(e) && Stamp(Run(INITIAL, es), e) >= death
    ensures Dropped(Run(INITIAL, es), e)
  {
    RunBeforeDeath(es, death);
    hide Run, TruthfulRun, Stamp;
  }

  // ---- No loss ----------------------------------------------------------------------------------

  // At step i of the run the child was looked at and found running.
  ghost predicate SeenRunning(es: seq<Event>, i: nat) {
    i < |es| && Looks(Run(INITIAL, es[..i]), es[i]) && es[i].probe.hasHandle && es[i].probe.child.Running?
    && !Run(INITIAL, es[..i]).watch.exiting
  }

  // The launcher's clock does not run backwards.
  ghost predicate ClockForward(es: seq<Event>) {
    forall i, j | 0 <= i < j < |es| && MayLook(es[i]) && MayLook(es[j]) :: es[i].probe.nowTs <= es[j].probe.nowTs
  }

  ghost predicate AliveSince(w: Watch, ts: nat) {
    ts <= w.aliveTs && (w.exitCutoff.After? ==> ts <= w.exitCutoff.ts)
  }

  lemma AliveStep(s: State, e: Event, ts: nat)
    requires AliveSince(s.watch, ts) && (!s.watch.exiting ==> s.watch.exitCutoff == Never)
    requires Looks(s, e) ==> ts <= e.probe.nowTs
    ensures AliveSince(WatchAfter(s, e), ts)
  {
    hide Stamp;
  }

  lemma AliveStart(s: State, e: Event)
    requires Looks(s, e) && e.probe.hasHandle && e.probe.child.Running?
    requires !s.watch.exiting && s.watch.exitCutoff == Never
    ensures AliveSince(WatchAfter(s, e), e.probe.nowTs)
  {
    hide Stamp;
  }

  lemma {:induction false} StaysAlive(es: seq<Event>, i: nat, j: nat)
    requires SeenRunning(es, i) && ClockForward(es) && i < j <= |es|
    ensures AliveSince(Run(INITIAL, es[..j]).watch, es[i].probe.nowTs)
    decreases j
  {
    hide Step, Stamp, WatchAfter, AliveSince;
    RunNext(es, j - 1);
    var s, e := Run(INITIAL, es[..j - 1]), es[j - 1];
    CutoffOnlyWhenExiting(es, j - 1);
    StepWatch(s, e);
    hide Run;
    if j == i + 1 {
      AliveStart(s, e);
    } else {
      StaysAlive(es, i, j - 1);
      AliveStep(s, e, es[i].probe.nowTs);
    }
  }

  lemma CutoffOnlyWhenExiting(es: seq<Event>, j: nat)
    requires j <= |es|
    ensures !Run(INITIAL, es[..j]).watch.exiting ==> Run(INITIAL, es[..j]).watch.exitCutoff == Never
  {
    if j > 0 {
      assert es[..j][..j - 1] == es[..j - 1];
      CutoffOnlyWhenExiting(es, j - 1);
      StepWatch(Run(INITIAL, es[..j - 1]), es[j - 1]);
      hide Step, Stamp;
    }
  }

  // Nothing stamped up to a moment at which the child was seen running is ever dropped as teardown.
  lemma SeenRunningIsKept(es: seq<Event>, i: nat, ts: nat)
    requires SeenRunning(es, i) && ClockForward(es) && ts <= es[i].probe.nowTs
    ensures !Passed(Run(INITIAL, es).watch.exitCutoff, ts)
  {
    StaysAlive(es, i, |es|);
    assert es[..|es|] == es;
    hide Run, SeenRunning, ClockForward;
  }

  // ---- Once ignored, always ignored -------------------------------------------------------------

  // Setting the exit time to t2 lets nothing through that was ignored: no exit time was set, or not an earlier one, or
  // the other cutoff is at least as early.
  predicate NoLater(w: Watch, t2: nat) {
    w.exitTs.Never? || t2 <= w.exitTs.ts || (w.exitCutoff.After? && w.exitCutoff.ts <= w.exitTs.ts)
  }

  ghost predicate NeverLater(es: seq<Event>) {
    forall n | 0 <= n < |es| && es[n].ChildExitEvent? :: NoLater(Run(INITIAL, es[..n]).watch, es[n].ts)
  }

  ghost predicate StaysIgnored(es: seq<Event>) {
    forall i, j, ts | 0 <= i <= j <= |es| && Ignored(Run(INITIAL, es[..i]).watch, ts) ::
      Ignored(Run(INITIAL, es[..j]).watch, ts)
  }

  // The guard is exact for one setting.
  lemma {:induction false} ExitSettingExact(w: Watch, t2: nat)
    ensures NoLater(w, t2) <==> forall ts | Ignored(w, ts) :: Ignored(SetChildExit(w, t2), ts)
  {
    if w.exitTs.After? && !NoLater(w, t2) {
      assert Ignored(w, w.exitTs.ts + 1) && !Ignored(SetChildExit(w, t2), w.exitTs.ts + 1);
    }
  }

  // Looking at the child lets nothing through: its cutoff is set once.
  lemma StepStaysIgnored(s: State, e: Event, ts: nat)
    requires s.watch.exitCutoff.After? ==> s.watch.exiting
    requires e.ChildExitEvent? ==> NoLater(s.watch, e.ts)
    requires Ignored(s.watch, ts)
    ensures Ignored(WatchAfter(s, e), ts)
  {
    hide Stamp;
  }

  lemma {:induction false} IgnoredStays(es: seq<Event>, i: nat, j: nat, ts: nat)
    requires i <= j <= |es| && NeverLater(es)
    requires Ignored(Run(INITIAL, es[..i]).watch, ts)
    ensures Ignored(Run(INITIAL, es[..j]).watch, ts)
    decreases j
  {
    hide Step, Stamp, WatchAfter, Run, Ignored, NoLater;
    if i < j {
      RunNext(es, j - 1);
      IgnoredStays(es, i, j - 1, ts);
      var s, e := Run(INITIAL, es[..j - 1]), es[j - 1];
      CutoffOnlyWhenExiting(es, j - 1);
      StepStaysIgnored(s, e, ts);
      StepWatch(s, e);
    }
  }

  lemma RunNext(es: seq<Event>, j: nat)
    requires j < |es|
    ensures Run(INITIAL, es[..j + 1]) == Step(Run(INITIAL, es[..j]), es[j])
  {
    hide Step;
    assert es[..j + 1][..j] == es[..j];
  }

  lemma LetThrough(es: seq<Event>, n: nat)
    requires n < |es| && es[n].ChildExitEvent? && StaysIgnored(es)
    ensures NoLater(Run(INITIAL, es[..n]).watch, es[n].ts)
  {
    RunNext(es, n);
    var s := Run(INITIAL, es[..n]);
    assert Run(INITIAL, es[..n + 1]).watch == SetChildExit(s.watch, es[n].ts);
    ExitSettingExact(s.watch, es[n].ts);
    hide Run, Step, Ignored, NoLater;
  }

  // What is ignored stays ignored through a run exactly if no setting of the exit time is a later one that counts.
  lemma IgnoredForeverExactly(es: seq<Event>)
    ensures NeverLater(es) <==> StaysIgnored(es)
  {
    hide Run, Ignored, NoLater;
    if NeverLater(es) {
      forall i, j, ts | 0 <= i <= j <= |es| && Ignored(Run(INITIAL, es[..i]).watch, ts)
        ensures Ignored(Run(INITIAL, es[..j]).watch, ts)
      {
        IgnoredStays(es, i, j, ts);
      }
    }
    if StaysIgnored(es) {
      forall n | 0 <= n < |es| && es[n].ChildExitEvent? ensures NoLater(Run(INITIAL, es[..n]).watch, es[n].ts) {
        LetThrough(es, n);
      }
    }
  }

  // Once an event stamped ts was dropped, no later event with that or a later stamp is applied.
  lemma OnceDroppedAlwaysDropped(es: seq<Event>, i: nat, j: nat)
    requires i < j < |es| && NeverLater(es) && IsStamped(es[i]) && IsStamped(es[j])
    requires Dropped(Run(INITIAL, es[..i]), es[i])
    requires Stamp(Run(INITIAL, es[..j]), es[j]) >= Stamp(Run(INITIAL, es[..i]), es[i])
    ensures Dropped(Run(INITIAL, es[..j]), es[j])
  {
    var s, ts := Run(INITIAL, es[..i]), Stamp(Run(INITIAL, es[..i]), es[i]);
    RunNext(es, i);
    StepWatch(s, es[i]);
    IgnoredStays(es, i + 1, j, ts);
    CutoffOnlyWhenExiting(es, j);
    StepStaysIgnored(Run(INITIAL, es[..j]), es[j], ts);
    hide Step, Stamp, WatchAfter, NeverLater, Run;
  }

  // The program sets the exit time once.
  ghost predicate ExitSetOnce(es: seq<Event>) {
    forall i, j | 0 <= i < j < |es| :: !(es[i].ChildExitEvent? && es[j].ChildExitEvent?)
  }

  lemma {:induction false} NoExitYet(es: seq<Event>, j: nat)
    requires j <= |es| && forall i | 0 <= i < j :: !es[i].ChildExitEvent?
    ensures Run(INITIAL, es[..j]).watch.exitTs == Never
  {
    if j > 0 {
      assert es[..j][..j - 1] == es[..j - 1];
      NoExitYet(es, j - 1);
      StepWatch(Run(INITIAL, es[..j - 1]), es[j - 1]);
      hide Step, Stamp;
    }
  }

  lemma ExitSetOnceNeverLater(es: seq<Event>)
    requires ExitSetOnce(es)
    ensures NeverLater(es) && StaysIgnored(es)
  {
    hide Run;
    forall n | 0 <= n < |es| && es[n].ChildExitEvent? ensures NoLater(Run(INITIAL, es[..n]).watch, es[n].ts) {
      NoExitYet(es, n);
    }
    IgnoredForeverExactly(es);
    hide StaysIgnored;
  }

  // Set twice through the class's public interface, the second time later, the exit time lets an event through that
  // was dropped before.
  lemma ExitSetTwice()
    ensures var look := EtwResidencyEvent(6, 1, Etw.ResidencyOp.PageIn, Probe(false, 6, Running));
            var es := [HelloEvent(1, 0), ChildExitEvent(5), look, ChildExitEvent(7), look];
            && Dropped(Run(INITIAL, es[..2]), es[2]) && !Dropped(Run(INITIAL, es[..4]), es[4])
            && Stamp(Run(INITIAL, es[..2]), es[2]) == Stamp(Run(INITIAL, es[..4]), es[4])
            && !NeverLater(es)
  {
    var look := EtwResidencyEvent(6, 1, Etw.ResidencyOp.PageIn, Probe(false, 6, Running));
    var es := [HelloEvent(1, 0), ChildExitEvent(5), look, ChildExitEvent(7), look];
    hide Run, EtwResidency, PollChild;
    RunNext(es, 0);
    RunNext(es, 1);
    RunNext(es, 2);
    RunNext(es, 3);
    RunNone(es);
    var s2, s3, s4 := Run(INITIAL, es[..2]), Run(INITIAL, es[..3]), Run(INITIAL, es[..4]);
    assert s2.watch == Watch(0, false, Never, After(5)) && s2.tb == OnHello(1, 0);
    StepWatch(s2, look);
    DroppedChangesNothing(s2, look);
    assert !NoLater(s3.watch, es[3].ts);
  }

  lemma RunNone(es: seq<Event>)
    ensures Run(INITIAL, es[..0]) == INITIAL
  {
  }
}
