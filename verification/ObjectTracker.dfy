// The DLL's tracker as an object (src/dll/Tracker.cpp) and the names its hooks extract (src/dll/ObjectHooks.cpp).

module ObjectTracker {
  import opened Basics
  import opened Wire
  import opened VtableHooks

  datatype ObjectInfo = ObjectInfo(
    id: nat, kind: ObjectType, alloc: AllocationKind, heapType: nat, size: nat, parentHeapId: nat, objectPtr: nat,
    name: seq<Unit>)

  // What goes over the pipe; names are UTF-16.
  datatype Msg = CreatedMsg(info: ObjectInfo) | RenamedMsg(id: nat, name: seq<Unit>) | DestroyedMsg(id: nat)

  function ToPayload(o: ObjectInfo): CreatedPayload {
    CreatedPayload(o.id, o.size, o.parentHeapId, o.objectPtr, o.heapType, o.kind, o.alloc)
  }

  function Stamped(info: ObjectInfo, id: nat, obj: nat): ObjectInfo {
    info.(id := id, objectPtr := obj)
  }

  // ---- Debug names ------------------------------------------------------------------------------

  datatype Guid = DebugObjectNameW | DebugObjectName | OtherGuid

  // The characters before the first NUL.
  method TrimAtNul(data: seq<Unit>) returns (name: seq<Unit>)
    ensures name == data[..Length(data)]
  {
    LengthIsFirstNul(data);
    var n := 0;
    while n < |data| && data[n] != NUL
      invariant n <= Length(data)
    {
      n := n + 1;
    }
    name := data[..n];
  }

  // The name that private data carries: up to its first NUL, and none for other data.
  function DebugName(guid: Guid, data: seq<Unit>, widen: seq<Unit> -> seq<Unit>): seq<Unit> {
    match guid
    case DebugObjectNameW => data[..Length(data)]
    case DebugObjectName => if Length(data) == 0 then [] else widen(data[..Length(data)])
    case OtherGuid => []
  }

  // A name is read the same with and without its NUL, whatever follows; an empty one is none, and so is other data.
  lemma DebugNameIsText(text: seq<Unit>, rest: seq<Unit>, widen: seq<Unit> -> seq<Unit>)
    requires NUL !in text
    ensures DebugName(DebugObjectNameW, text, widen) == text
    ensures DebugName(DebugObjectNameW, text + [NUL] + rest, widen) == text
    ensures DebugName(DebugObjectName, text, widen) == if text == [] then [] else widen(text)
    ensures DebugName(DebugObjectName, text + [NUL] + rest, widen) == if text == [] then [] else widen(text)
    ensures DebugName(OtherGuid, text, widen) == []
  {
    LengthOfText(text, rest);
    assert (text + [NUL] + rest)[..|text|] == text && text[..|text|] == text;
  }

  lemma {:induction false} LengthOfText(text: seq<Unit>, rest: seq<Unit>)
    requires NUL !in text
    ensures Length(text) == |text| && Length(text + [NUL] + rest) == |text|
  {
    if text != [] {
      LengthOfText(text[1..], rest);
      assert (text + [NUL] + rest)[1..] == text[1..] + [NUL] + rest;
    }
  }

  // data holds the units of the private data, wide ones or bytes; widen stands for the system's code page conversion.
  method ExtractDebugName(guid: Guid, data: seq<Unit>, widen: seq<Unit> -> seq<Unit>) returns (name: seq<Unit>)
    ensures name == DebugName(guid, data, widen)
  {
    if data == [] { return []; }
    match guid {
      case DebugObjectNameW =>
        name := TrimAtNul(data);
      case DebugObjectName =>
        var a := TrimAtNul(data);
        if a == [] { return []; }
        name := widen(a);
      case OtherGuid =>
        name := [];
    }
  }

  // ---- Patching ---------------------------------------------------------------------------------

  // Overwrites one slot, unless the page cannot be made writable.
  method PatchSlot(vtable: array<Fn>, index: nat, fn: Fn, unprotected: bool) returns (prev: Option<Fn>)
    requires index < vtable.Length
    modifies vtable
    ensures vtable[..] == if unprotected then old(vtable[..])[index := fn] else old(vtable[..])
    ensures prev == if unprotected then Some(old(vtable[index])) else None
  {
    if !unprotected { return None; }
    prev := Some(vtable[index]);
    vtable[index] := fn;
  }

  predicate OwnHookFree(p: VTablePatch) {
    forall slot | slot in SLOTS :: p.Real(slot) != Some(Hook(slot))
  }

  // The three slots, and the record of what they held.
  method PatchVTable(vtable: array<Fn>, unprotected: seq<bool>) returns (p: VTablePatch)
    requires vtable.Length >= VTABLE_SIZE && |unprotected| == |SLOTS|
    modifies vtable
    ensures vtable[..] == AfterPatching(old(vtable[..]), unprotected, 3)
    ensures p == Record(Captured(old(vtable[..]), unprotected, 3)) && OwnHookFree(p)
  {
    ghost var v: Vtable := vtable[..];
    var release := PatchSlot(vtable, SLOT_RELEASE, Hook(SLOT_RELEASE), unprotected[0]);
    var privateData := PatchSlot(vtable, SLOT_SET_PRIVATE_DATA, Hook(SLOT_SET_PRIVATE_DATA), unprotected[1]);
    var name := PatchSlot(vtable, SLOT_SET_NAME, Hook(SLOT_SET_NAME), unprotected[2]);
    PatchedInOrder(v, unprotected);
    p := VTablePatch(UnselfRef(release, SLOT_RELEASE), UnselfRef(privateData, SLOT_SET_PRIVATE_DATA),
                     UnselfRef(name, SLOT_SET_NAME));
  }

  class Tracker {
    var nextId: nat
    var objects: map<nat, ObjectInfo>
    var vtablePatches: map<array<Fn>, VTablePatch>
    var sent: seq<Msg>    // what was emitted, in order

    // Ids are positive and not yet used, each object has one of its own, and no original is its own hook.
    ghost predicate Valid()
      reads this
    {
      && nextId >= 1
      && (forall a | a in objects :: a != 0 && 1 <= objects[a].id < nextId && objects[a].objectPtr == a)
      && (forall a, b | a in objects && b in objects && a != b :: objects[a].id != objects[b].id)
      && (forall v | v in vtablePatches :: OwnHookFree(vtablePatches[v]))
    }

    constructor ()
      ensures Valid() && objects == map[] && vtablePatches == map[] && sent == [] && nextId == 1
    {
      nextId, objects, vtablePatches, sent := 1, map[], map[], [];
    }

    method PatchVTableIfNew(vtable: array<Fn>, unprotected: seq<bool>) returns (p: VTablePatch)
      requires Valid() && vtable.Length >= VTABLE_SIZE && |unprotected| == |SLOTS|
      modifies `vtablePatches, vtable
      ensures Valid() && vtable in vtablePatches && p == vtablePatches[vtable]
      ensures vtable in old(vtablePatches) ==>
                vtablePatches == old(vtablePatches) && vtable[..] == old(vtable[..])
      ensures vtable !in old(vtablePatches) ==>
                && vtable[..] == AfterPatching(old(vtable[..]), unprotected, 3)
                && vtablePatches
                   == old(vtablePatches)[vtable := Record(Captured(old(vtable[..]), unprotected, 3))]
    {
      hide Record, Captured, AfterPatching, OwnHookFree;
      if vtable in vtablePatches {
        return vtablePatches[vtable];
      }
      p := PatchVTable(vtable, unprotected);
      vtablePatches := vtablePatches[vtable := p];
    }

    // Null objects are ignored; every other registration takes a new id, tracks the object and announces it.
    method Register(obj: nat, vtable: array<Fn>, info: ObjectInfo, unprotected: seq<bool>) returns (id: nat)
      requires Valid() && vtable.Length >= VTABLE_SIZE && |unprotected| == |SLOTS|
      modifies this, vtable
      ensures Valid()
      ensures obj == 0 ==> id == 0 && nextId == old(nextId) && objects == old(objects) && sent == old(sent)
                           && vtable[..] == old(vtable[..])
      ensures obj != 0 ==>
                && id == old(nextId) && nextId == id + 1
                && objects == old(objects)[obj := Stamped(info, id, obj)]
                && sent == old(sent) + [CreatedMsg(Stamped(info, id, obj))]
                && vtable in vtablePatches
    {
      if obj == 0 { return 0; }
      var _ := PatchVTableIfNew(vtable, unprotected);
      id := nextId;
      nextId := nextId + 1;
      objects := objects[obj := Stamped(info, id, obj)];
      sent := sent + [CreatedMsg(Stamped(info, id, obj))];
    }

    method LookupId(obj: nat) returns (id: nat)
      requires Valid()
      ensures id == if obj in objects then objects[obj].id else 0
      ensures id != 0 <==> obj in objects
    {
      id := if obj in objects then objects[obj].id else 0;
    }

    method OnReleaseToZero(obj: nat)
      requires Valid()
      modifies `objects, `sent
      ensures Valid()
      ensures obj in old(objects) ==>
                objects == old(objects) - {obj} && sent == old(sent) + [DestroyedMsg(old(objects)[obj].id)]
      ensures obj !in old(objects) ==> objects == old(objects) && sent == old(sent)
    {
      if obj !in objects { return; }
      var id := objects[obj].id;
      objects := objects - {obj};
      sent := sent + [DestroyedMsg(id)];
    }

    // Only a tracked object whose name changes is announced.
    method OnSetName(obj: nat, name: seq<Unit>)
      requires Valid()
      modifies `objects, `sent
      ensures Valid()
      ensures obj in old(objects) && old(objects)[obj].name != name ==>
                && objects == old(objects)[obj := old(objects)[obj].(name := name)]
                && sent == old(sent) + [RenamedMsg(old(objects)[obj].id, name)]
      ensures obj !in old(objects) || old(objects)[obj].name == name ==>
                objects == old(objects) && sent == old(sent)
    {
      if obj !in objects || objects[obj].name == name { return; }
      var id := objects[obj].id;
      objects := objects[obj := objects[obj].(name := name)];
      sent := sent + [RenamedMsg(id, name)];
    }

    // A successful call through the hooked SetPrivateData renames the object if its GUID and data carry a name.
    method HookSetPrivateData(obj: nat, ok: bool, guid: Guid, data: seq<Unit>, widen: seq<Unit> -> seq<Unit>)
      requires Valid()
      modifies `objects, `sent
      ensures Valid()
      ensures var name := DebugName(guid, data, widen);
              Renamed(obj, name, ok && name != [])
    {
      if !ok { return; }
      var name := ExtractDebugName(guid, data, widen);
      if name != [] {
        OnSetName(obj, name);
      }
    }

    // If `really`, what OnSetName does; otherwise nothing.
    twostate predicate Renamed(obj: nat, name: seq<Unit>, really: bool)
      reads this
    {
      if really && obj in old(objects) && old(objects)[obj].name != name
      then objects == old(objects)[obj := old(objects)[obj].(name := name)] &&
           sent == old(sent) + [RenamedMsg(old(objects)[obj].id, name)]
      else objects == old(objects) && sent == old(sent)
    }

    // A call through the hooked SetName. The real one may set the name as private data, with or without its NUL, and so
    // enter the other hook first; still the object is renamed and announced once.
    method HookSetName(obj: nat, name: seq<Unit>, ok: bool, inner: Option<seq<Unit>>, innerOk: bool,
                       widen: seq<Unit> -> seq<Unit>)
      requires Valid() && NUL !in name && (inner.Some? ==> inner.value == name || inner.value == name + [NUL])
      modifies `objects, `sent
      ensures Valid() && Renamed(obj, name, ok || (innerOk && inner.Some? && name != []))
    {
      if inner.Some? {
        DebugNameIsText(name, [], widen);
        assert name + [NUL] + [] == name + [NUL];
        HookSetPrivateData(obj, innerOk, DebugObjectNameW, inner.value, widen);
      }
      if ok {
        OnSetName(obj, name);
      }
    }
  }

  lemma PatchedInOrder(v: Vtable, unprotected: seq<bool>)
    requires |unprotected| == |SLOTS|
    ensures Captured(v, unprotected, 3)
            == [if unprotected[0] then Some(v[SLOT_RELEASE]) else None,
                if unprotected[1] then Some(v[SLOT_SET_PRIVATE_DATA]) else None,
                if unprotected[2] then Some(v[SLOT_SET_NAME]) else None]
    ensures AfterPatching(v, unprotected, 3)
            == var w := if unprotected[0] then v[SLOT_RELEASE := Hook(SLOT_RELEASE)] else v;
               var x := if unprotected[1] then w[SLOT_SET_PRIVATE_DATA := Hook(SLOT_SET_PRIVATE_DATA)] else w;
               if unprotected[2] then x[SLOT_SET_NAME := Hook(SLOT_SET_NAME)] else x
  {
    assert Captured(v, unprotected, 1) == [if unprotected[0] then Some(v[SLOT_RELEASE]) else None];
    assert AfterPatching(v, unprotected, 1) == if unprotected[0] then v[SLOT_RELEASE := Hook(SLOT_RELEASE)] else v;
  }
}
