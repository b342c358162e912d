// The process-teardown filter (Model::PollChildLocked, Model::AfterChildExitLocked).

module ChildWatch {
  // UINT64_MAX as a cutoff: nothing is ever newer.
  datatype Cutoff = Never | After(ts: nat)

  predicate Passed(c: Cutoff, ts: nat) {
    c.After? && ts > c.ts
  }

  // What one look at the child finds: the clock, read first, and then the state of its handle.
  datatype ChildState = Running | Exiting | QueryFailed
  datatype Probe = Probe(hasHandle: bool, nowTs: nat, child: ChildState)

  datatype Watch = Watch(aliveTs: nat, exiting: bool, exitCutoff: Cutoff, exitTs: Cutoff)

  const START := Watch(0, false, Never, Never)

  function PollChild(w: Watch, p: Probe): Watch {
    if w.exiting || !p.hasHandle then w
    else match p.child
      case QueryFailed => w
      case Running => w.(aliveTs := p.nowTs)
      case Exiting => w.(exiting := true, exitCutoff := After(w.aliveTs))
  }

  predicate Ignored(w: Watch, ts: nat) {
    Passed(w.exitCutoff, ts) || Passed(w.exitTs, ts)
  }

  function SetChildExit(w: Watch, ts: nat): Watch {
    w.(exitTs := After(ts))
  }
}
