// Vocabulary of the pipe protocol (src/common/EventTypes.h) and of the ETW wrapper (src/etw/EtwMonitor.h).

module Wire {
  datatype ObjectType =
    | UnknownObject | Device | Resource | Heap | DescriptorHeap | CommandQueue | CommandAllocator
    | CommandList | PipelineState | RootSignature | Fence | QueryHeap | CommandSignature

  datatype AllocationKind = NoAllocation | Committed | Placed | Reserved | HeapObject

  // The fields of CreatedPayload that the join and the totals use.
  datatype CreatedPayload = CreatedPayload(
    id: nat, size: nat, parentHeapId: nat, ptr: nat, heapType: nat,
    kind: ObjectType, alloc: AllocationKind)
}

module Etw {
  datatype ObjType =
    | Invalid | Device | Resource | Heap | PipelineState | StateObject
    | CommandAllocator | DescriptorHeap | MetaCommand

  datatype Group = UnknownGroup | Local | NonLocal

  datatype ResidencyOp = MakeResident | Evict | PageIn | PageOut

  datatype CounterKind =
    | LocalBudget | LocalResident | LocalUsage | NonLocalBudget | NonLocalResident | NonLocalUsage
    | DemotedMin | DemotedLow | DemotedNormal | DemotedHigh | DemotedMax
    | PagingLocalToNonLocal | PagingNonLocalToLocal
}
