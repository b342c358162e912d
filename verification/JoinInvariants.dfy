// What every reachable state of the join satisfies.

module JoinInvariants {
  import opened Tallies
  import opened JoinState
  import opened JoinSteps

  // What the environment has issued so far.
  datatype Issued = Issued(
    ids: set<nat>,       // tracker ids
    libs: set<nat>,      // library ids
    canon: set<nat>,     // library ids that were not folded into another
    ended: nat,          // ETW destroys that found their object
    expired: set<nat>,   // library ids whose wait timed out
    nowMs: nat)          // the millisecond clock

  ghost predicate NoRepeats(q: seq<nat>) {
    forall i, j | 0 <= i < j < |q| :: q[i] != q[j]
  }

  // pick lists each set's elements, each once.
  ghost predicate Enumerates(pick: Order) {
    forall x: set<nat> :: NoRepeats(pick(x)) && forall c :: c in pick(x) <==> c in x
  }

  // ---- Live objects and their indexes -----------------------------------------------------------

  ghost predicate LiveIds(s: State, env: Issued) {
    forall i | i in s.live :: i != 0 && s.live[i].id == i && i in env.ids
  }

  ghost predicate PtrIndex(s: State) {
    forall a | a in s.ix.ptrToId ::
      a != 0 && s.ix.ptrToId[a] in s.live && s.live[s.ix.ptrToId[a]].ptr == a
  }

  ghost predicate IsChild(s: State, c: nat, p: nat) {
    c in s.live && IsPlaced(s.live[c]) && s.live[c].parent == p
  }

  ghost predicate Listed(s: State, c: nat, p: nat) {
    p in s.ix.children && c in s.ix.children[p]
  }

  // Entries are live placed resources of that heap; for a heap that is live or still to come, all of them.
  ghost predicate ChildIndex(s: State, env: Issued) {
    && (forall p, c | Listed(s, c, p) :: IsChild(s, c, p))
    && (forall p, c | IsChild(s, c, p) && (p in s.live || p !in env.ids) :: Listed(s, c, p))
  }

  ghost predicate ParentsAreHeaps(live: map<nat, LiveObject>) {
    forall c | c in live && IsPlaced(live[c]) && live[c].parent in live :: live[live[c].parent].kind.Heap?
  }

  // ---- The binding ------------------------------------------------------------------------------

  ghost predicate Pair(e: EtwObj, o: LiveObject) {
    && e.address == o.ptr && o.ptr != 0
    && Compatible(e.kind, o.kind) && e.orphanTs == 0 && e.pendingSince == 0
    && o.ownLoc == e.group
  }

  // A partial bijection between live objects and ETW records, and what every bound pair agrees on.
  ghost predicate Binding(s: State) {
    && 0 !in s.etw
    && (forall i | i in s.live && s.live[i].etwKey != 0 ::
          s.live[i].etwKey in s.etw && s.etw[s.live[i].etwKey].boundId == i)
    && (forall k | k in s.etw && s.etw[k].boundId != 0 ::
          s.etw[k].boundId in s.live && s.live[s.etw[k].boundId].etwKey == k)
    && (forall k | k in s.etw && s.etw[k].boundId != 0 :: Pair(s.etw[k], s.live[s.etw[k].boundId]))
  }

  ghost predicate DriverSizes(s: State) {
    forall k | k in s.etw && s.etw[k].boundId != 0 && IsDriverType(s.etw[k].kind) ::
      s.etw[k].boundId in s.live && s.live[s.etw[k].boundId].driverSize == s.etw[k].size
  }

  // ---- Library ids ------------------------------------------------------------------------------

  ghost predicate AddrIndex(s: State) {
    forall a | a in s.ix.byAddr :: a != 0 && s.ix.byAddr[a] in s.etw && s.etw[s.ix.byAddr[a]].address == a
  }

  ghost predicate Blank(e: EtwObj) {
    e.aliases == [] && e.boundId == 0 && e.orphanTs == 0 && e.pendingSince == 0 && !e.expired
  }

  ghost predicate LeadsTo(s: State, l: nat, k: nat) {
    l in s.ix.alias && s.ix.alias[l] == k
  }

  ghost predicate InClass(s: State, l: nat, k: nat) {
    k in s.etw && (l == k || l in s.etw[k].aliases)
  }

  // Every id leads in one hop to a record; the ids that lead to record k are exactly k and its aliases.
  ghost predicate AliasForest(s: State, env: Issued) {
    && (forall l | l in s.ix.alias :: l in env.libs && s.ix.alias[l] in s.etw)
    && (forall l, k :: LeadsTo(s, l, k) <==> InClass(s, l, k))
  }

  ghost predicate AliasesOnce(s: State) {
    forall k | k in s.etw :: k !in s.etw[k].aliases && NoRepeats(s.etw[k].aliases)
  }

  // A record without an address is not an alias target, not bound and not waiting.
  ghost predicate AddresslessBlank(s: State) {
    forall k | k in s.etw && s.etw[k].address == 0 :: Blank(s.etw[k])
  }

  // ---- The pending queue ------------------------------------------------------------------------

  ghost predicate Reachable(s: State, k: nat) {
    k in s.etw && s.etw[k].address in s.ix.byAddr && s.ix.byAddr[s.etw[k].address] == k
  }

  ghost predicate IsPending(s: State, k: nat) {
    k in s.etw && s.etw[k].pendingSince != 0
  }

  ghost predicate QueueSorted(s: State) {
    forall i, j | 0 <= i < j < |s.ix.pendingQ| && IsPending(s, s.ix.pendingQ[i]) && IsPending(s, s.ix.pendingQ[j]) ::
      s.etw[s.ix.pendingQ[i]].pendingSince <= s.etw[s.ix.pendingQ[j]].pendingSince
  }

  // No key twice; every pending record is queued; a queued key that no longer waits will not be queued again.
  ghost predicate PendingQueue(s: State, env: Issued) {
    && NoRepeats(s.ix.pendingQ)
    && (forall k | k in s.ix.pendingQ :: k in env.libs && (k in s.etw ==> s.etw[k].address != 0))
    && (forall k | IsPending(s, k) ::
          k in s.ix.pendingQ && s.etw[k].boundId == 0 && s.etw[k].orphanTs == 0 && !s.etw[k].expired &&
          s.etw[k].pendingSince <= WaitStamp(env.nowMs))
    && (forall k | k in s.ix.pendingQ && Reachable(s, k) ::
          IsPending(s, k) || s.etw[k].boundId != 0 || s.etw[k].orphanTs != 0 || s.etw[k].expired)
  }

  // ---- The join is eager ------------------------------------------------------------------------

  // The pair that the two address indexes give for a could not bind.
  ghost predicate NoMissedBind(s: State, a: nat) {
    a in s.ix.ptrToId && a in s.ix.byAddr && s.ix.ptrToId[a] in s.live && s.ix.byAddr[a] in s.etw ==>
      !CanBind(s.etw[s.ix.byAddr[a]], s.live[s.ix.ptrToId[a]])
  }

  ghost predicate MaximalBut(s: State, skip: nat) {
    forall a | a != skip :: NoMissedBind(s, a)
  }

  ghost predicate Maximal(s: State) {
    forall a :: NoMissedBind(s, a)
  }

  // ---- Locations --------------------------------------------------------------------------------

  // The cached locations outside `stale` are what EffLoc computes from scratch.
  ghost predicate LocCache(live: map<nat, LiveObject>, stale: set<nat>) {
    forall i | i in live && i !in stale :: live[i].effLoc == EffLoc(live, live[i])
  }

  ghost predicate Reported(live: map<nat, LiveObject>) {
    forall i | i in live :: live[i].effLoc != MemLoc.Unknown ==> live[i].locReported
  }

  ghost function LocWeight(c: LocCell, o: LiveObject): nat {
    if !o.alloc.NoAllocation? && c == LocCellOf(o) then o.size else 0
  }

  // Bytes by location: each cell is the sum over the live memory-bearing objects in it.
  ghost predicate LocTally(t: Table<LocCell>, live: map<nat, LiveObject>) {
    Tallied(t, live, LocWeight)
  }

  ghost predicate LocInv(s: State) {
    LocCache(s.live, {}) && Reported(s.live) && LocTally(s.locBytes, s.live)
  }

  ghost predicate Objects(s: State, env: Issued) {
    LiveIds(s, env) && PtrIndex(s) && ChildIndex(s, env) && ParentsAreHeaps(s.live)
  }

  ghost predicate Forest(s: State, env: Issued) {
    AddrIndex(s) && AliasForest(s, env) && AliasesOnce(s) && AddresslessBlank(s)
  }

  ghost predicate Records(s: State, env: Issued) {
    Binding(s) && Forest(s, env)
  }

  ghost predicate Queue(s: State, env: Issued) {
    PendingQueue(s, env) && QueueSorted(s)
  }

  ghost predicate JoinInv(s: State, env: Issued) {
    Objects(s, env) && Records(s, env) && Queue(s, env) && Maximal(s)
  }

  // ---- The join does not read cached locations or driver sizes ----------------------------------

  predicate SameObject(o: LiveObject, p: LiveObject) {
    p == o.(effLoc := p.effLoc, locReported := p.locReported, driverSize := p.driverSize)
  }

  ghost predicate SameJoin(s: State, t: State) {
    && t.etw == s.etw && t.ix == s.ix
    && t.live.Keys == s.live.Keys && forall i | i in s.live :: SameObject(s.live[i], t.live[i])
  }

  lemma SameJoinObjects(s: State, t: State, env: Issued)
    requires Objects(s, env) && SameJoin(s, t)
    ensures Objects(t, env)
  {
    forall c, p ensures IsChild(s, c, p) <==> IsChild(t, c, p) {}
  }

  // The object indexes read only fields that no ETW event changes.
  ghost predicate SameIdentities(s: State, t: State) {
    && t.ix.ptrToId == s.ix.ptrToId && t.ix.children == s.ix.children
    && t.live.Keys == s.live.Keys
    && forall i | i in s.live ::
         t.live[i].id == s.live[i].id && t.live[i].kind == s.live[i].kind && t.live[i].alloc == s.live[i].alloc &&
         t.live[i].parent == s.live[i].parent && t.live[i].ptr == s.live[i].ptr
  }

  lemma IdentitiesKeepObjects(s: State, t: State, env: Issued)
    requires Objects(s, env) && SameIdentities(s, t)
    ensures Objects(t, env)
  {
    forall c, p ensures IsChild(s, c, p) <==> IsChild(t, c, p) {}
    forall c, p ensures Listed(s, c, p) <==> Listed(t, c, p) {}
  }

  // What the alias forest and the address index read.
  ghost predicate SameForest(s: State, t: State) {
    && t.ix.alias == s.ix.alias && t.ix.byAddr == s.ix.byAddr
    && t.etw.Keys == s.etw.Keys
    && (forall k | k in s.etw :: t.etw[k].address == s.etw[k].address && t.etw[k].aliases == s.etw[k].aliases)
    && (forall k | k in s.etw && s.etw[k].address == 0 && Blank(s.etw[k]) :: Blank(t.etw[k]))
  }

  lemma ForestKept(s: State, t: State, env: Issued)
    requires Forest(s, env) && SameForest(s, t)
    ensures Forest(t, env)
  {
    forall l, k ensures LeadsTo(t, l, k) <==> LeadsTo(s, l, k) {}
    forall l, k ensures InClass(t, l, k) <==> InClass(s, l, k) {}
  }

  lemma SameJoinRecords(s: State, t: State, env: Issued)
    requires Records(s, env) && SameJoin(s, t)
    ensures Records(t, env)
  {
    ForestKept(s, t, env);
  }

  lemma SameJoinQueue(s: State, t: State, env: Issued)
    requires Queue(s, env) && t.etw == s.etw && t.ix == s.ix
    ensures Queue(t, env)
  {
    forall k ensures IsPending(s, k) <==> IsPending(t, k) {}
    forall k ensures Reachable(s, k) <==> Reachable(t, k) {}
  }

  lemma SameJoinMissed(s: State, t: State, a: nat)
    requires SameJoin(s, t) && NoMissedBind(s, a)
    ensures NoMissedBind(t, a)
  {
  }

  lemma SameJoinKeeps(s: State, t: State, env: Issued)
    requires JoinInv(s, env) && SameJoin(s, t)
    ensures JoinInv(t, env)
  {
    SameJoinObjects(s, t, env);
    SameJoinRecords(s, t, env);
    SameJoinQueue(s, t, env);
    forall a ensures NoMissedBind(t, a) { SameJoinMissed(s, t, a); }
  }

  // The invariant reads only the issued ids and an upper bound on the clock.
  lemma IssuedMore(s: State, env: Issued, env2: Issued)
    requires JoinInv(s, env) && env2.ids == env.ids && env2.libs == env.libs && env.nowMs <= env2.nowMs
    ensures JoinInv(s, env2)
  {
  }
}
