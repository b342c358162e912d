// Environment blocks (src/launcher/Elevation.cpp): splitting one, filtering and extending it, sorting it by name.

module Environment {
  import opened Basics

  const EQUALS: Unit := 61    // '='

  // ---- Blocks -----------------------------------------------------------------------------------

  function Split(block: seq<Unit>): seq<seq<Unit>>
    decreases |block|
  {
    if block == [] || block[0] == NUL then [] else
      var n := Length(block);
      [block[..n]] + if n < |block| then Split(block[n + 1..]) else []
  }

  // The walk over a block, one entry and its terminator at a time; p is what is left of it.
  method SplitEnvBlock(block: seq<Unit>) returns (entries: seq<seq<Unit>>)
    ensures entries == Split(block)
  {
    entries := [];
    var p := block;
    while p != [] && p[0] != NUL
      invariant Split(block) == entries + Split(p)
      decreases |p|
    {
      var n := Length(p);
      ghost var before := entries;
      entries := entries + [p[..n]];
      if n == |p| {
        assert Split(p) == [p[..n]] + [] == [p[..n]];
        return;
      }
      assert Split(p) == [p[..n]] + Split(p[n + 1..]);
      p := p[n + 1..];
    }
    assert entries + [] == entries;
  }

  function Join(entries: seq<seq<Unit>>): seq<Unit> {
    if entries == [] then [] else entries[0] + [NUL] + Join(entries[1..])
  }

  // The block of the entries; an empty one still ends with two NULs.
  function Block(entries: seq<seq<Unit>>): seq<Unit> {
    Join(entries) + [NUL] + if entries == [] then [NUL] else []
  }

  predicate IsEntry(e: seq<Unit>) {
    e != [] && NUL !in e
  }

  lemma {:induction false} LengthOfEntry(e: seq<Unit>, rest: seq<Unit>)
    requires NUL !in e
    ensures Length(e + [NUL] + rest) == |e|
  {
    if e != [] {
      LengthOfEntry(e[1..], rest);
      assert (e + [NUL] + rest)[1..] == e[1..] + [NUL] + rest;
    }
  }

  lemma {:induction false} JoinThenSplit(entries: seq<seq<Unit>>, rest: seq<Unit>)
    requires (forall e | e in entries :: IsEntry(e)) && rest != [] && rest[0] == NUL
    ensures Split(Join(entries) + rest) == entries
  {
    if entries == [] {
      assert Join(entries) + rest == rest;
    } else {
      var e, more := entries[0], Join(entries[1..]) + rest;
      assert IsEntry(e);
      assert Join(entries) + rest == e + [NUL] + more;
      LengthOfEntry(e, more);
      assert (e + [NUL] + more)[..|e|] == e && (e + [NUL] + more)[|e| + 1..] == more;
      JoinThenSplit(entries[1..], rest);
    }
  }

  lemma {:induction false} SplitGivesEntries(block: seq<Unit>)
    ensures forall e | e in Split(block) :: IsEntry(e)
    decreases |block|
  {
    if block != [] && block[0] != NUL {
      var n := Length(block);
      LengthIsFirstNul(block);
      assert n > 0;
      if n < |block| {
        SplitGivesEntries(block[n + 1..]);
      }
    }
  }

  // A block gives back its entries exactly if none is empty or contains a NUL.
  lemma BlockRoundTrip(entries: seq<seq<Unit>>)
    ensures Split(Block(entries)) == entries <==> forall e | e in entries :: IsEntry(e)
  {
    if forall e | e in entries :: IsEntry(e) {
      JoinThenSplit(entries, [NUL] + if entries == [] then [NUL] else []);
      assert Block(entries) == Join(entries) + ([NUL] + if entries == [] then [NUL] else []);
    } else {
      SplitGivesEntries(Block(entries));
    }
  }

  // ---- Names ------------------------------------------------------------------------------------

  function Find(e: seq<Unit>, u: Unit, start: nat): (i: nat)
    requires start <= |e|
    ensures start <= i <= |e| && (forall j | start <= j < i :: e[j] != u) && (i < |e| ==> e[i] == u)
    decreases |e| - start
  {
    if start == |e| || e[start] == u then start else Find(e, u, start + 1)
  }

  // Entries like "=C:=C:\\dir" keep their leading '='.
  function EnvNameLen(e: seq<Unit>): (n: nat)
    ensures n <= |e|
    ensures forall j | 1 <= j < n :: e[j] != EQUALS
    ensures n == |e| || (n > 0 && e[n] == EQUALS)
  {
    if e == [] then 0 else Find(e, EQUALS, 1)
  }

  type Upcase = Unit -> Unit

  function UpcaseAll(s: seq<Unit>, up: Upcase): (t: seq<Unit>)
    ensures |t| == |s|
  {
    seq(|s|, i requires 0 <= i < |s| => up(s[i]))
  }

  // What entries are sorted by.
  function Name(e: seq<Unit>, up: Upcase): seq<Unit> {
    UpcaseAll(e[..EnvNameLen(e)], up)
  }

  // Ordinal comparison: lexicographic by code unit, a proper prefix first.
  predicate Less(a: seq<Unit>, b: seq<Unit>) {
    b != [] && (a == [] || a[0] < b[0] || (a[0] == b[0] && Less(a[1..], b[1..])))
  }

  lemma {:induction false} LessIsTotal(a: seq<Unit>, b: seq<Unit>)
    ensures !(Less(a, b) && Less(b, a))
    ensures !Less(a, b) && !Less(b, a) ==> a == b
    ensures a == b ==> !Less(a, b)
  {
    if a != [] && b != [] {
      LessIsTotal(a[1..], b[1..]);
      assert a == [a[0]] + a[1..] && b == [b[0]] + b[1..];
    }
  }

  lemma {:induction false} LessTransitive(a: seq<Unit>, b: seq<Unit>, c: seq<Unit>)
    requires Less(a, b) && Less(b, c)
    ensures Less(a, c)
  {
    if a != [] {
      if a[0] == b[0] == c[0] {
        LessTransitive(a[1..], b[1..], c[1..]);
      }
    }
  }

  // ---- Stable sorting ---------------------------------------------------------------------------

  predicate NamesSorted(es: seq<seq<Unit>>, up: Upcase) {
    forall i, j | 0 <= i < j < |es| :: !Less(Name(es[j], up), Name(es[i], up))
  }

  // The entries named n, in their order.
  function Named(es: seq<seq<Unit>>, n: seq<Unit>, up: Upcase): seq<seq<Unit>> {
    if es == [] then []
    else (if Name(es[0], up) == n then [es[0]] else []) + Named(es[1..], n, up)
  }

  // out is sorted by name, and entries of one name keep their order. This also says that nothing is lost or added.
  ghost predicate IsStableSort(out: seq<seq<Unit>>, input: seq<seq<Unit>>, up: Upcase) {
    NamesSorted(out, up) && forall n :: Named(out, n, up) == Named(input, n, up)
  }

  function Insert(e: seq<Unit>, es: seq<seq<Unit>>, up: Upcase): seq<seq<Unit>> {
    if es == [] || !Less(Name(es[0], up), Name(e, up)) then [e] + es
    else [es[0]] + Insert(e, es[1..], up)
  }

  function StableSort(es: seq<seq<Unit>>, up: Upcase): seq<seq<Unit>> {
    if es == [] then [] else Insert(es[0], StableSort(es[1..], up), up)
  }

  lemma {:induction false} InsertMember(e: seq<Unit>, es: seq<seq<Unit>>, up: Upcase, x: seq<Unit>)
    ensures x in Insert(e, es, up) <==> x == e || x in es
  {
    if es != [] && Less(Name(es[0], up), Name(e, up)) {
      InsertMember(e, es[1..], up, x);
      assert es == [es[0]] + es[1..];
    }
  }

  lemma {:induction false} InsertSorted(e: seq<Unit>, es: seq<seq<Unit>>, up: Upcase)
    requires NamesSorted(es, up)
    ensures NamesSorted(Insert(e, es, up), up)
  {
    hide Name;
    if es == [] {
    } else if !Less(Name(es[0], up), Name(e, up)) {
      forall j | 0 <= j < |es| ensures !Less(Name(es[j], up), Name(e, up)) {
        if Less(Name(es[j], up), Name(e, up)) {
          LessIsTotal(Name(es[0], up), Name(es[j], up));
          if Less(Name(es[0], up), Name(es[j], up)) {
            LessTransitive(Name(es[0], up), Name(es[j], up), Name(e, up));
          }
        }
      }
    } else {
      assert NamesSorted(es[1..], up);
      InsertSorted(e, es[1..], up);
      var t := Insert(e, es[1..], up);
      LessIsTotal(Name(es[0], up), Name(e, up));
      forall j | 0 <= j < |t| ensures !Less(Name(t[j], up), Name(es[0], up)) {
        InsertMember(e, es[1..], up, t[j]);
        if t[j] != e {
          var i :| 0 <= i < |es[1..]| && es[1..][i] == t[j];
        }
      }
    }
  }

  // The new entry comes before the others of its name.
  lemma {:induction false} InsertNamed(e: seq<Unit>, es: seq<seq<Unit>>, up: Upcase, n: seq<Unit>)
    requires NamesSorted(es, up)
    ensures Named(Insert(e, es, up), n, up) == (if Name(e, up) == n then [e] else []) + Named(es, n, up)
  {
    hide Name;
    if es != [] && Less(Name(es[0], up), Name(e, up)) {
      LessIsTotal(Name(es[0], up), Name(e, up));
      assert NamesSorted(es[1..], up);
      InsertNamed(e, es[1..], up, n);
      var t := [es[0]] + Insert(e, es[1..], up);
      assert t[1..] == Insert(e, es[1..], up) && t[0] == es[0];
    } else {
      assert ([e] + es)[1..] == es && ([e] + es)[0] == e;
    }
  }

  lemma {:induction false} StableSortWorks(es: seq<seq<Unit>>, up: Upcase)
    ensures IsStableSort(StableSort(es, up), es, up)
  {
    hide Name;
    if es != [] {
      StableSortWorks(es[1..], up);
      InsertSorted(es[0], StableSort(es[1..], up), up);
      forall n ensures Named(StableSort(es, up), n, up) == Named(es, n, up) {
        InsertNamed(es[0], StableSort(es[1..], up), up, n);
      }
    }
  }

  lemma {:induction false} NamedFirst(es: seq<seq<Unit>>, n: seq<Unit>, up: Upcase, i: nat)
    requires i < |es| && Name(es[i], up) == n
    ensures Named(es, n, up) != [] && Named(es, n, up)[0] in es && (i == 0 ==> Named(es, n, up)[0] == es[0])
    ensures Name(Named(es, n, up)[0], up) == n
  {
    hide Name;
    if i > 0 && Name(es[0], up) != n {
      NamedFirst(es[1..], n, up, i - 1);
    }
  }

  // The specification determines the result.
  lemma {:induction false} StableSortUnique(a: seq<seq<Unit>>, b: seq<seq<Unit>>, up: Upcase)
    requires NamesSorted(a, up) && NamesSorted(b, up) && forall n :: Named(a, n, up) == Named(b, n, up)
    ensures a == b
    decreases |a|
  {
    hide Name;
    if a != [] && b != [] {
      SameHead(a, b, up);
      forall n ensures Named(a[1..], n, up) == Named(b[1..], n, up) {
        assert Named(a, n, up) == Named(b, n, up);
        var first := if Name(a[0], up) == n then [a[0]] else [];
        assert Named(a[1..], n, up) == (first + Named(a[1..], n, up))[|first|..];
        assert Named(b[1..], n, up) == (first + Named(b[1..], n, up))[|first|..];
      }
      assert NamesSorted(a[1..], up) && NamesSorted(b[1..], up);
      StableSortUnique(a[1..], b[1..], up);
      assert a == [a[0]] + a[1..] && b == [b[0]] + b[1..];
    } else if a != [] {
      NamedFirst(a, Name(a[0], up), up, 0);
    } else if b != [] {
      NamedFirst(b, Name(b[0], up), up, 0);
    }
  }

  lemma SameHead(a: seq<seq<Unit>>, b: seq<seq<Unit>>, up: Upcase)
    requires a != [] && b != []
    requires NamesSorted(a, up) && NamesSorted(b, up) && forall n :: Named(a, n, up) == Named(b, n, up)
    ensures a[0] == b[0]
  {
    hide Name;
    var m, n := Name(a[0], up), Name(b[0], up);
    NamedFirst(a, m, up, 0);
    NamedFirst(b, n, up, 0);
    var x, y := Named(b, m, up)[0], Named(a, n, up)[0];
    NamedInside(b, m, up);
    NamedInside(a, n, up);
    var i :| 0 <= i < |b| && b[i] == x;
    var j :| 0 <= j < |a| && a[j] == y;
    assert !Less(m, n) by { if i > 0 { assert Name(b[i], up) == m; } else { LessIsTotal(m, n); } }
    assert !Less(n, m) by { if j > 0 { assert Name(a[j], up) == n; } else { LessIsTotal(m, n); } }
    LessIsTotal(m, n);
  }

  lemma {:induction false} NamedInside(es: seq<seq<Unit>>, n: seq<Unit>, up: Upcase)
    ensures forall e | e in Named(es, n, up) :: e in es && Name(e, up) == n
  {
    hide Name;
    if es != [] {
      NamedInside(es[1..], n, up);
    }
  }

  // ---- The target's environment -----------------------------------------------------------------

  // "DX12TRACK_"
  const PREFIX: seq<Unit> := [68, 88, 49, 50, 84, 82, 65, 67, 75, 95]

  // Our own variables, whatever their case; the prefix must lie within the name.
  predicate IsOurs(e: seq<Unit>, up: Upcase) {
    EnvNameLen(e) >= |PREFIX| && UpcaseAll(e[..|PREFIX|], up) == UpcaseAll(PREFIX, up)
  }

  function Kept(entries: seq<seq<Unit>>, up: Upcase): seq<seq<Unit>> {
    if entries == [] then [] else
      Kept(entries[..|entries| - 1], up) + if IsOurs(entries[|entries| - 1], up) then [] else [entries[|entries| - 1]]
  }

  datatype Variable = Variable(name: seq<Unit>, value: seq<Unit>)

  function Assignment(v: Variable): seq<Unit> {
    v.name + [EQUALS] + v.value
  }

  function Assignments(vars: seq<Variable>): (es: seq<seq<Unit>>)
    ensures |es| == |vars|
  {
    seq(|vars|, i requires 0 <= i < |vars| => Assignment(vars[i]))
  }

  // What the target's environment should hold.
  function Wanted(entries: seq<seq<Unit>>, vars: seq<Variable>, up: Upcase): seq<seq<Unit>> {
    StableSort(Kept(entries, up) + Assignments(vars), up)
  }

  lemma {:induction false} JoinAppend(es: seq<seq<Unit>>, e: seq<Unit>)
    ensures Join(es + [e]) == Join(es) + e + [NUL]
  {
    if es == [] {
      assert [] + [e] == [e] && [e][1..] == [];
    } else {
      JoinAppend(es[1..], e);
      assert (es + [e])[1..] == es[1..] + [e];
    }
  }

  method EraseOurs(entries: seq<seq<Unit>>, up: Upcase) returns (kept: seq<seq<Unit>>)
    ensures kept == Kept(entries, up)
  {
    kept := [];
    var i := 0;
    while i < |entries|
      invariant i <= |entries| && kept == Kept(entries[..i], up)
    {
      assert entries[..i + 1][..i] == entries[..i];
      if !IsOurs(entries[i], up) {
        kept := kept + [entries[i]];
      }
      i := i + 1;
    }
    assert entries[..i] == entries;
  }

  method JoinAll(entries: seq<seq<Unit>>) returns (block: seq<Unit>)
    ensures block == Block(entries)
  {
    block := [];
    var i := 0;
    while i < |entries|
      invariant i <= |entries| && block == Join(entries[..i])
    {
      assert entries[..i + 1] == entries[..i] + [entries[i]];
      JoinAppend(entries[..i], entries[i]);
      block := block + entries[i] + [NUL];
      i := i + 1;
    }
    assert entries[..i] == entries;
    block := block + [NUL];
    if |block| == 1 {
      JoinEmpty(entries);
      block := block + [NUL];
    } else {
      JoinEmpty(entries);
    }
  }

  lemma JoinEmpty(entries: seq<seq<Unit>>)
    ensures Join(entries) == [] <==> entries == []
  {
  }

  // original is the block of the instance that asked for elevation, empty if there is none; own is this instance's.
  method BuildEnvironment(original: seq<Unit>, own: seq<Unit>, vars: seq<Variable>, up: Upcase)
    returns (block: seq<Unit>)
    ensures block == Block(Wanted(Split(if original != [] then original else own), vars, up))
  {
    var entries;
    if original != [] {
      entries := SplitEnvBlock(original);
    } else {
      entries := SplitEnvBlock(own);
    }
    entries := EraseOurs(entries, up);
    entries := entries + Assignments(vars);
    entries := StableSort(entries, up);
    block := JoinAll(entries);
  }

  predicate NulFree(v: Variable) {
    NUL !in v.name && NUL !in v.value
  }

  lemma {:induction false} InsertKeepsEntries(e: seq<Unit>, es: seq<seq<Unit>>, up: Upcase)
    requires IsEntry(e) && forall x | x in es :: IsEntry(x)
    ensures forall x | x in Insert(e, es, up) :: IsEntry(x)
  {
    forall x | x in Insert(e, es, up) ensures IsEntry(x) { InsertMember(e, es, up, x); }
  }

  lemma {:induction false} SortKeepsEntries(es: seq<seq<Unit>>, up: Upcase)
    requires forall x | x in es :: IsEntry(x)
    ensures forall x | x in StableSort(es, up) :: IsEntry(x)
  {
    if es != [] {
      SortKeepsEntries(es[1..], up);
      InsertKeepsEntries(es[0], StableSort(es[1..], up), up);
    }
  }

  lemma {:induction false} KeptEntries(entries: seq<seq<Unit>>, up: Upcase)
    ensures forall x | x in Kept(entries, up) :: x in entries && !IsOurs(x, up)
  {
    if entries != [] {
      KeptEntries(entries[..|entries| - 1], up);
    }
  }

  // Variables without NULs survive: splitting the new block gives the original entries without ours, then the
  // variables, sorted stably by name.
  lemma EnvironmentRoundTrip(entries: seq<seq<Unit>>, vars: seq<Variable>, up: Upcase)
    requires (forall e | e in entries :: IsEntry(e)) && forall v | v in vars :: NulFree(v)
    ensures Split(Block(Wanted(entries, vars, up))) == Wanted(entries, vars, up)
    ensures IsStableSort(Wanted(entries, vars, up), Kept(entries, up) + Assignments(vars), up)
  {
    var es := Kept(entries, up) + Assignments(vars);
    KeptEntries(entries, up);
    forall e | e in es ensures IsEntry(e) {
      if e !in Kept(entries, up) {
        var i :| 0 <= i < |vars| && Assignments(vars)[i] == e;
        assert NulFree(vars[i]) && e[|vars[i].name|] == EQUALS;
      }
    }
    SortKeepsEntries(es, up);
    StableSortWorks(es, up);
    BlockRoundTrip(Wanted(entries, vars, up));
  }
}
