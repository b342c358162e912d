// Shared vtables, the hooks patched into them, and the record of the originals (src/dll/Tracker.cpp,
// src/dll/ObjectHooks.cpp). Patching one vtable is several steps under the tracker's lock; calls through the vtable
// read its slots without the lock, and only the hooks' lookup of the original takes it.

module VtableHooks {
  import opened Basics

  // IUnknown::Release, ID3D12Object::SetPrivateData and ID3D12Object::SetName, in the order they are patched.
  const SLOT_RELEASE := 2
  const SLOT_SET_PRIVATE_DATA := 4
  const SLOT_SET_NAME := 6
  const SLOTS: seq<nat> := [SLOT_RELEASE, SLOT_SET_PRIVATE_DATA, SLOT_SET_NAME]
  const VTABLE_SIZE := 7

  // A function pointer: our hook for a slot, or anything else.
  datatype Fn = Hook(slot: nat) | Native(code: nat)

  type Vtable = v: seq<Fn> | |v| >= VTABLE_SIZE witness seq(VTABLE_SIZE, i => Native(0))

  // What is recorded for a vtable: the original of each patched slot.
  datatype VTablePatch = VTablePatch(
    realRelease: Option<Fn>, realSetPrivateData: Option<Fn>, realSetName: Option<Fn>)
  {
    function Real(slot: nat): Option<Fn> {
      if slot == SLOT_RELEASE then realRelease
      else if slot == SLOT_SET_PRIVATE_DATA then realSetPrivateData
      else if slot == SLOT_SET_NAME then realSetName
      else None
    }
  }

  // A slot that already held our hook is not an original: calling it would recurse.
  function UnselfRef(captured: Option<Fn>, slot: nat): Option<Fn> {
    if captured == Some(Hook(slot)) then None else captured
  }

  // ---- The machine ------------------------------------------------------------------------------

  // Who holds the lock: nobody, or a patcher that has captured the first |captured| slots of vt.
  datatype Lock = Free | Patching(vt: nat, captured: seq<Option<Fn>>)

  // A call through a slot of a vtable: the function that runs now, and how many hooks forwarded to get there.
  datatype Call =
    | Running(vt: nat, slot: nat, fn: Fn, depth: nat)
    | Skipped(vt: nat, slot: nat)    // the hook had nothing to forward to

  datatype Machine = Machine(
    mem: map<nat, Vtable>, patches: map<nat, VTablePatch>, lock: Lock, calls: seq<Call>)

  datatype Action =
    | Acquire(vt: nat)               // PatchVTableIfNew(object of vt): lock and search the map
    | PatchNext(unprotected: bool)   // one PatchSlot; VirtualProtect may fail
    | Insert                         // record the originals and unlock
    | Begin(vt: nat, slot: nat)      // a caller reads a slot
    | Resolve(c: nat)                // the hook's lookup, under the lock

  predicate Enabled(m: Machine, a: Action) {
    match a
    case Acquire(vt) => m.lock.Free? && vt in m.mem
    case PatchNext(_) => m.lock.Patching? && |m.lock.captured| < |SLOTS| && m.lock.vt in m.mem
    case Insert => m.lock.Patching? && |m.lock.captured| == |SLOTS|
    case Begin(vt, slot) => vt in m.mem && slot in SLOTS
    case Resolve(c) => m.lock.Free? && c < |m.calls| && m.calls[c].Running? && m.calls[c].fn.Hook?
  }

  function Record(captured: seq<Option<Fn>>): VTablePatch
    requires |captured| == |SLOTS|
  {
    VTablePatch(UnselfRef(captured[0], SLOTS[0]), UnselfRef(captured[1], SLOTS[1]), UnselfRef(captured[2], SLOTS[2]))
  }

  function LookUp(m: Machine, vt: nat, slot: nat): Option<Fn> {
    if vt in m.patches then m.patches[vt].Real(slot) else None
  }

  function Next(m: Machine, a: Action): Machine
    requires Enabled(m, a)
  {
    match a
    case Acquire(vt) => if vt in m.patches then m else m.(lock := Patching(vt, []))
    case PatchNext(unprotected) =>
      var vt, slot := m.lock.vt, SLOTS[|m.lock.captured|];
      if unprotected
      then m.(mem := m.mem[vt := m.mem[vt][slot := Hook(slot)]],
              lock := Patching(vt, m.lock.captured + [Some(m.mem[vt][slot])]))
      else m.(lock := Patching(vt, m.lock.captured + [None]))
    case Insert => m.(patches := m.patches[m.lock.vt := Record(m.lock.captured)], lock := Free)
    case Begin(vt, slot) => m.(calls := m.calls + [Running(vt, slot, m.mem[vt][slot], 0)])
    case Resolve(c) =>
      var call := m.calls[c];
      m.(calls := m.calls[c := match LookUp(m, call.vt, call.fn.slot)
                               case Some(f) => Running(call.vt, call.slot, f, call.depth + 1)
                               case None => Skipped(call.vt, call.slot)])
  }

  // ---- Runs -------------------------------------------------------------------------------------

  ghost predicate CanRun(m: Machine, acts: seq<Action>)
    decreases |acts|, 0
  {
    acts == [] || (CanRun(m, acts[..|acts| - 1]) && Enabled(Run(m, acts[..|acts| - 1]), acts[|acts| - 1]))
  }

  ghost function Run(m: Machine, acts: seq<Action>): Machine
    requires CanRun(m, acts)
    decreases |acts|, 1
  {
    if acts == [] then m else Next(Run(m, acts[..|acts| - 1]), acts[|acts| - 1])
  }

  function Start(mem: map<nat, Vtable>): Machine {
    Machine(mem, map[], Free, [])
  }

  // ---- The invariant ----------------------------------------------------------------------------

  // now is what is left of the original vtable: a slot that was captured holds our hook, any other is untouched.
  ghost predicate SlotOk(orig: Fn, now: Fn, captured: Option<Fn>, slot: nat) {
    match captured
    case Some(f) => f == orig && now == Hook(slot)
    case None => now == orig
  }

  ghost predicate Untouched(orig: Vtable, now: Vtable) {
    now == orig
  }

  ghost predicate Partly(orig: Vtable, now: Vtable, captured: seq<Option<Fn>>)
    requires |captured| <= |SLOTS|
  {
    && |now| == |orig|
    && (forall i | 0 <= i < |captured| :: SlotOk(orig[SLOTS[i]], now[SLOTS[i]], captured[i], SLOTS[i]))
    && (forall i | |captured| <= i < |SLOTS| :: now[SLOTS[i]] == orig[SLOTS[i]])
  }

  // A finished vtable: each slot is ours with its original on record, or failed to unprotect and is untouched.
  ghost predicate Patched(orig: Vtable, now: Vtable, p: VTablePatch) {
    && |now| == |orig|
    && forall i | 0 <= i < |SLOTS| ::
         || (now[SLOTS[i]] == Hook(SLOTS[i]) && p.Real(SLOTS[i]) == UnselfRef(Some(orig[SLOTS[i]]), SLOTS[i]))
         || (now[SLOTS[i]] == orig[SLOTS[i]] && p.Real(SLOTS[i]) == None)
  }

  ghost predicate VtableOk(m: Machine, orig: map<nat, Vtable>, vt: nat)
    requires vt in orig && vt in m.mem
  {
    if vt in m.patches then Patched(orig[vt], m.mem[vt], m.patches[vt])
    else if m.lock.Patching? && m.lock.vt == vt
    then |m.lock.captured| <= |SLOTS| && Partly(orig[vt], m.mem[vt], m.lock.captured)
    else Untouched(orig[vt], m.mem[vt])
  }

  // The only hook a vtable can have come with is the slot's own.
  ghost predicate Proper(orig: map<nat, Vtable>) {
    forall vt, slot | vt in orig && slot in SLOTS :: orig[vt][slot].Native? || orig[vt][slot] == Hook(slot)
  }

  // A call runs the original of its slot, or the slot's hook before its only forwarding; it is skipped only if the
  // original was the hook itself.
  ghost predicate CallOk(m: Machine, orig: map<nat, Vtable>, call: Call) {
    && call.vt in orig && call.vt in m.mem && call.slot in SLOTS
    && match call
       case Running(vt, slot, f, depth) =>
         || (f.Native? && f == orig[vt][slot] && depth <= 1)
         || (f == Hook(slot) && depth == 0 && m.mem[vt][slot] == Hook(slot))
       case Skipped(vt, slot) => orig[vt][slot] == Hook(slot)
  }

  ghost predicate Sound(m: Machine, orig: map<nat, Vtable>) {
    && m.mem.Keys == orig.Keys && m.patches.Keys <= orig.Keys
    && (m.lock.Patching? ==> m.lock.vt in orig && m.lock.vt !in m.patches)
    && (forall vt | vt in orig :: VtableOk(m, orig, vt))
    && (forall c | 0 <= c < |m.calls| :: CallOk(m, orig, m.calls[c]))
  }

  lemma StartSound(mem: map<nat, Vtable>)
    ensures Sound(Start(mem), mem)
  {
  }

  // ---- Every step keeps it ----------------------------------------------------------------------

  lemma PatchNextVtable(m: Machine, orig: map<nat, Vtable>, unprotected: bool)
    requires Sound(m, orig) && Enabled(m, PatchNext(unprotected))
    ensures var n := Next(m, PatchNext(unprotected)); VtableOk(n, orig, m.lock.vt)
  {
    var vt, k := m.lock.vt, |m.lock.captured|;
    assert VtableOk(m, orig, vt);
    var n := Next(m, PatchNext(unprotected));
    forall i | 0 <= i < |SLOTS| && i != k ensures n.mem[vt][SLOTS[i]] == m.mem[vt][SLOTS[i]] {}
  }

  lemma InsertVtable(m: Machine, orig: map<nat, Vtable>)
    requires Sound(m, orig) && Enabled(m, Insert)
    ensures VtableOk(Next(m, Insert), orig, m.lock.vt)
  {
    var vt := m.lock.vt;
    assert VtableOk(m, orig, vt);
    var p := Next(m, Insert).patches[vt];
    forall i | 0 <= i < |SLOTS| ensures p.Real(SLOTS[i]) == UnselfRef(m.lock.captured[i], SLOTS[i]) {}
  }

  lemma VtablesKept(m: Machine, orig: map<nat, Vtable>, a: Action)
    requires Sound(m, orig) && Enabled(m, a)
    ensures forall vt | vt in orig :: VtableOk(Next(m, a), orig, vt)
  {
    var n := Next(m, a);
    forall vt | vt in orig ensures VtableOk(n, orig, vt) {
      assert VtableOk(m, orig, vt);
      if m.lock.Patching? && vt == m.lock.vt {
        if a.PatchNext? {
          PatchNextVtable(m, orig, a.unprotected);
        } else if a.Insert? {
          InsertVtable(m, orig);
        }
      }
    }
  }

  // Slots only ever change from their original to their hook.
  lemma HooksStay(m: Machine, a: Action, vt: nat, slot: nat)
    requires Enabled(m, a) && vt in m.mem && slot in SLOTS && m.mem[vt][slot] == Hook(slot)
    ensures vt in Next(m, a).mem && Next(m, a).mem[vt][slot] == Hook(slot)
  {
  }

  // A slot that holds a hook while the lock is free either came with it, or has its original on record.
  lemma Resolved(m: Machine, orig: map<nat, Vtable>, vt: nat, slot: nat)
    requires Sound(m, orig) && Proper(orig) && m.lock.Free? && vt in orig && slot in SLOTS
    requires m.mem[vt][slot] == Hook(slot)
    ensures LookUp(m, vt, slot) == if orig[vt][slot] == Hook(slot) then None else Some(orig[vt][slot])
  {
    assert VtableOk(m, orig, vt);
    var i :| 0 <= i < |SLOTS| && SLOTS[i] == slot;
  }

  // What a slot holds, at any time.
  lemma SlotHolds(m: Machine, orig: map<nat, Vtable>, vt: nat, slot: nat)
    requires Sound(m, orig) && vt in orig && slot in SLOTS
    ensures m.mem[vt][slot] == Hook(slot) || m.mem[vt][slot] == orig[vt][slot]
  {
    assert VtableOk(m, orig, vt);
    var i :| 0 <= i < |SLOTS| && SLOTS[i] == slot;
  }

  lemma CallsKept(m: Machine, orig: map<nat, Vtable>, a: Action)
    requires Sound(m, orig) && Proper(orig) && Enabled(m, a)
    ensures forall c | 0 <= c < |Next(m, a).calls| :: CallOk(Next(m, a), orig, Next(m, a).calls[c])
  {
    var n := Next(m, a);
    forall c | 0 <= c < |n.calls| ensures CallOk(n, orig, n.calls[c]) {
      var call := n.calls[c];
      if a == Resolve(c) {
        Resolved(m, orig, call.vt, call.slot);
      } else if c < |m.calls| {
        assert CallOk(m, orig, call);
        if m.mem[call.vt][call.slot] == Hook(call.slot) {
          HooksStay(m, a, call.vt, call.slot);
        }
      } else {
        SlotHolds(m, orig, call.vt, call.slot);
      }
    }
  }

  lemma StepKeepsSound(m: Machine, orig: map<nat, Vtable>, a: Action)
    requires Sound(m, orig) && Proper(orig) && Enabled(m, a)
    ensures Sound(Next(m, a), orig)
  {
    VtablesKept(m, orig, a);
    CallsKept(m, orig, a);
    hide VtableOk, CallOk;
  }

  lemma {:induction false} RunKeepsSound(orig: map<nat, Vtable>, acts: seq<Action>)
    requires Proper(orig) && CanRun(Start(orig), acts)
    ensures Sound(Run(Start(orig), acts), orig)
  {
    if acts == [] {
      StartSound(orig);
    } else {
      RunKeepsSound(orig, acts[..|acts| - 1]);
      hide Sound, Next, Enabled;
      StepKeepsSound(Run(Start(orig), acts[..|acts| - 1]), orig, acts[|acts| - 1]);
    }
  }

  // ---- Theorems ---------------------------------------------------------------------------------

  // No recorded original is its own hook, whatever the vtables held, in any interleaving and under any protection
  // failures.
  lemma {:induction false} NoSelfReference(orig: map<nat, Vtable>, acts: seq<Action>, vt: nat, slot: nat)
    requires CanRun(Start(orig), acts) && vt in Run(Start(orig), acts).patches && slot in SLOTS
    ensures Run(Start(orig), acts).patches[vt].Real(slot) != Some(Hook(slot))
  {
    if acts != [] {
      var m, a := Run(Start(orig), acts[..|acts| - 1]), acts[|acts| - 1];
      if vt in m.patches && !(a.Insert? && vt == m.lock.vt) {
        NoSelfReference(orig, acts[..|acts| - 1], vt, slot);
      }
    }
  }

  predicate Done(call: Call) {
    call.Skipped? || call.fn.Native?
  }

  // A call that is done ran exactly the original of its slot, after at most one forwarding; it was skipped exactly if
  // the original was our own hook. A call that is not done is in its slot's hook for the first time.
  lemma HooksAreTransparent(orig: map<nat, Vtable>, acts: seq<Action>, c: nat)
    requires Proper(orig) && CanRun(Start(orig), acts) && c < |Run(Start(orig), acts).calls|
    ensures var call := Run(Start(orig), acts).calls[c];
            && call.vt in orig && call.slot in {2, 4, 6}
            && (Done(call) ==> (call.Skipped? <==> orig[call.vt][call.slot] == Hook(call.slot)))
            && (Done(call) && call.Running? ==> call.fn == orig[call.vt][call.slot] && call.depth <= 1)
            && (!Done(call) ==> call.fn == Hook(call.slot) && call.depth == 0)
  {
    RunKeepsSound(orig, acts);
    assert CallOk(Run(Start(orig), acts), orig, Run(Start(orig), acts).calls[c]);
  }

  // A call in a hook is done as soon as its lookup gets the lock: the hook never finds a slot written but not recorded.
  lemma LookupFindsOriginal(orig: map<nat, Vtable>, acts: seq<Action>, c: nat)
    requires Proper(orig) && CanRun(Start(orig), acts) && Enabled(Run(Start(orig), acts), Resolve(c))
    ensures Done(Next(Run(Start(orig), acts), Resolve(c)).calls[c])
  {
    RunKeepsSound(orig, acts);
    var m := Run(Start(orig), acts);
    var call := m.calls[c];
    assert CallOk(m, orig, call);
    Resolved(m, orig, call.vt, call.slot);
  }

  // A vtable in the map is never patched again and its record never changes.
  lemma NeverPatchedAgain(orig: map<nat, Vtable>, acts: seq<Action>, a: Action, vt: nat)
    requires Proper(orig) && CanRun(Start(orig), acts) && Enabled(Run(Start(orig), acts), a)
    requires vt in Run(Start(orig), acts).patches
    ensures var m, n := Run(Start(orig), acts), Next(Run(Start(orig), acts), a);
            && vt in m.mem && vt in n.mem && n.mem[vt] == m.mem[vt]
            && vt in n.patches && n.patches[vt] == m.patches[vt]
  {
    RunKeepsSound(orig, acts);
    hide VtableOk, CallOk;
  }

  // ---- The patcher's region as one step ---------------------------------------------------------

  function Captured(v: Vtable, unprotected: seq<bool>, n: nat): (c: seq<Option<Fn>>)
    requires n <= |SLOTS| == |unprotected|
    ensures |c| == n
  {
    if n == 0 then []
    else Captured(v, unprotected, n - 1) + [if unprotected[n - 1] then Some(v[SLOTS[n - 1]]) else None]
  }

  function AfterPatching(v: Vtable, unprotected: seq<bool>, n: nat): (w: Vtable)
    requires n <= |SLOTS| == |unprotected|
    ensures |w| == |v| && forall i | n <= i < |SLOTS| :: w[SLOTS[i]] == v[SLOTS[i]]
  {
    if n == 0 then v
    else var w := AfterPatching(v, unprotected, n - 1);
         if unprotected[n - 1] then w[SLOTS[n - 1] := Hook(SLOTS[n - 1])] else w
  }

  function Region(vt: nat, unprotected: seq<bool>, n: nat): seq<Action>
    requires n <= |unprotected|
  {
    if n == 0 then [Acquire(vt)] else Region(vt, unprotected, n - 1) + [PatchNext(unprotected[n - 1])]
  }

  // Without other threads in between, the region does to one vtable what the method PatchVTableIfNew does.
  lemma {:induction false} RegionRuns(m: Machine, vt: nat, unprotected: seq<bool>, n: nat)
    requires m.lock.Free? && vt in m.mem && vt !in m.patches && n <= |SLOTS| == |unprotected|
    ensures CanRun(m, Region(vt, unprotected, n))
    ensures Run(m, Region(vt, unprotected, n))
            == m.(lock := Patching(vt, Captured(m.mem[vt], unprotected, n)),
                  mem := m.mem[vt := AfterPatching(m.mem[vt], unprotected, n)])
  {
    if n == 0 {
      RunMore(m, [], Acquire(vt));
      assert [] + [Acquire(vt)] == [Acquire(vt)];
      assert m.mem == m.mem[vt := m.mem[vt]];
    } else {
      RegionRuns(m, vt, unprotected, n - 1);
      RunMore(m, Region(vt, unprotected, n - 1), PatchNext(unprotected[n - 1]));
      hide Run, CanRun;
      var w := AfterPatching(m.mem[vt], unprotected, n - 1);
      assert m.mem[vt := w][vt := AfterPatching(m.mem[vt], unprotected, n)]
             == m.mem[vt := AfterPatching(m.mem[vt], unprotected, n)];
    }
  }

  lemma RunMore(m: Machine, acts: seq<Action>, a: Action)
    requires CanRun(m, acts) && Enabled(Run(m, acts), a)
    ensures CanRun(m, acts + [a]) && Run(m, acts + [a]) == Next(Run(m, acts), a)
  {
    assert (acts + [a])[..|acts|] == acts;
  }

  lemma RegionInserts(m: Machine, vt: nat, unprotected: seq<bool>)
    requires m.lock.Free? && vt in m.mem && vt !in m.patches && |SLOTS| == |unprotected|
    ensures var acts := Region(vt, unprotected, 3) + [Insert];
            && CanRun(m, acts)
            && Run(m, acts) == m.(mem := m.mem[vt := AfterPatching(m.mem[vt], unprotected, 3)],
                                  patches := m.patches[vt := Record(Captured(m.mem[vt], unprotected, 3))])
  {
    RegionRuns(m, vt, unprotected, 3);
    RunMore(m, Region(vt, unprotected, 3), Insert);
  }
}
