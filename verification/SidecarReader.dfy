// A consumer of the sidecar log: what it knows after reading the lines in order.

module SidecarReader {
  import opened JoinState

  datatype Reader = Reader(
    loc: map<nat, MemLoc>,     // the last location line of each object
    bound: map<nat, nat>,      // object -> library id, from etw_bind and etw_object_destroyed
    attributed: set<nat>,      // library ids of all etw_bind lines, late ones included
    locChanges: bool,          // no location line repeated the object's previous one
    bindOnce: bool)            // no library id was attributed twice

  const BLANK := Reader(map[], map[], {}, true, true)

  function ReadLine(r: Reader, l: Line): Reader {
    match l
    case LocationLine(_, id, g, _) =>
      r.(loc := r.loc[id := g], locChanges := r.locChanges && !(id in r.loc && r.loc[id] == g))
    case BindLine(_, id, key, _, _, late) =>
      r.(bound := if late then r.bound else r.bound[id := key],
         attributed := r.attributed + {key}, bindOnce := r.bindOnce && key !in r.attributed)
    case ObjectDestroyedLine(_, key) =>
      r.(bound := map i | i in r.bound && r.bound[i] != key :: r.bound[i])
    case _ => r
  }

  function Read(log: seq<Line>): Reader {
    if log == [] then BLANK else ReadLine(Read(log[..|log| - 1]), log[|log| - 1])
  }

  lemma ReadAppend(log: seq<Line>, l: Line)
    ensures Read(log + [l]) == ReadLine(Read(log), l)
  {
    assert (log + [l])[..|log|] == log;
  }
}
