// What the target finds in its environment: each given variable under its name with its value, none of ours besides,
// and everything else as it was.

module EnvironmentLookup {
  import opened Basics
  import opened Environment

  // The entry assigns value to name: it is name=value.
  predicate Assigns(e: seq<Unit>, name: seq<Unit>, value: seq<Unit>) {
    |e| == |name| + 1 + |value| && e[..|name|] == name && e[|name|] == '=' as int && e[|name| + 1..] == value
  }

  // A name that a lookup can ask for.
  predicate ProperName(name: seq<Unit>) {
    name != [] && forall j | 1 <= j < |name| :: name[j] != '=' as int
  }

  // The name starts with DX12TRACK_, whatever the case.
  predicate StartsWithPrefix(name: seq<Unit>, up: Upcase) {
    |name| >= 10 && (forall i | 0 <= i < 10 :: up(name[i]) == up("DX12TRACK_"[i] as int))
    && forall j | 1 <= j < 10 :: name[j] != '=' as int
  }

  predicate SameName(a: seq<Unit>, b: seq<Unit>, up: Upcase) {
    |a| == |b| && forall i | 0 <= i < |a| :: up(a[i]) == up(b[i])
  }

  // A case-insensitive lookup of name meets the entry e.
  predicate Meets(e: seq<Unit>, name: seq<Unit>, up: Upcase) {
    SameName(e[..EnvNameLen(e)], name, up)
  }

  lemma MeetsByName(e: seq<Unit>, name: seq<Unit>, up: Upcase)
    ensures Meets(e, name, up) <==> Name(e, up) == UpcaseAll(name, up)
  {
    var n := e[..EnvNameLen(e)];
    if Name(e, up) == UpcaseAll(name, up) {
      forall i | 0 <= i < |n| ensures up(n[i]) == up(name[i]) {
        assert UpcaseAll(n, up)[i] == UpcaseAll(name, up)[i];
      }
    }
  }

  // ---- Entries ----------------------------------------------------------------------------------

  lemma AssignmentAssigns(v: Variable)
    ensures Assigns(Assignment(v), v.name, v.value)
    ensures ProperName(v.name) ==> EnvNameLen(Assignment(v)) == |v.name|
  {
    var e := Assignment(v);
    assert e[|v.name|] == EQUALS;
  }

  lemma PrefixIsOurs(e: seq<Unit>, up: Upcase)
    ensures StartsWithPrefix(e, up) <==> IsOurs(e, up)
  {
    var n := EnvNameLen(e);
    PrefixByUnits();
    if StartsWithPrefix(e, up) {
      assert n >= 10;
      assert UpcaseAll(e[..10], up) == UpcaseAll(PREFIX, up);
    }
    if IsOurs(e, up) {
      forall i | 0 <= i < 10 ensures up(e[i]) == up("DX12TRACK_"[i] as int) {
        assert UpcaseAll(e[..10], up)[i] == UpcaseAll(PREFIX, up)[i];
      }
    }
  }

  lemma PrefixByUnits()
    ensures |PREFIX| == 10 && forall i | 0 <= i < 10 :: PREFIX[i] == "DX12TRACK_"[i] as int
  {
  }

  lemma {:induction false} KeptExactly(entries: seq<seq<Unit>>, up: Upcase, e: seq<Unit>)
    ensures e in Kept(entries, up) <==> e in entries && !IsOurs(e, up)
  {
    hide IsOurs;
    if entries != [] {
      KeptExactly(entries[..|entries| - 1], up, e);
      assert entries == entries[..|entries| - 1] + [entries[|entries| - 1]];
    }
  }

  lemma {:induction false} SortKeepsMembers(es: seq<seq<Unit>>, up: Upcase, e: seq<Unit>)
    ensures e in StableSort(es, up) <==> e in es
  {
    hide Name;
    if es != [] {
      SortKeepsMembers(es[1..], up, e);
      InsertMember(es[0], StableSort(es[1..], up), up, e);
      assert es == [es[0]] + es[1..];
    }
  }

  // The entries of the target are the original ones without the prefix, and one for each variable.
  lemma WantedExactly(entries: seq<seq<Unit>>, vars: seq<Variable>, up: Upcase, e: seq<Unit>)
    ensures e in Wanted(entries, vars, up) <==>
              (e in entries && !StartsWithPrefix(e, up)) || exists v | v in vars :: Assigns(e, v.name, v.value)
  {
    var es := Kept(entries, up) + Assignments(vars);
    SortKeepsMembers(es, up, e);
    KeptExactly(entries, up, e);
    PrefixIsOurs(e, up);
    hide StartsWithPrefix, IsOurs, StableSort;
    if e in Assignments(vars) {
      var i :| 0 <= i < |vars| && Assignments(vars)[i] == e;
      AssignmentAssigns(vars[i]);
      assert vars[i] in vars;
    }
    if exists v | v in vars :: Assigns(e, v.name, v.value) {
      var v :| v in vars && Assigns(e, v.name, v.value);
      var i :| 0 <= i < |vars| && vars[i] == v;
      AssignmentAssigns(v);
      AssignsOnce(e, Assignment(v), v.name, v.value);
      assert Assignments(vars)[i] == e;
    }
  }

  lemma AssignsOnce(e: seq<Unit>, f: seq<Unit>, name: seq<Unit>, value: seq<Unit>)
    requires Assigns(e, name, value) && Assigns(f, name, value)
    ensures e == f
  {
    assert e == e[..|name|] + [e[|name|]] + e[|name| + 1..];
    assert f == f[..|name|] + [f[|name|]] + f[|name| + 1..];
  }

  // ---- Lookups in the finished block ------------------------------------------------------------

  // A variable that is given once, in whatever case, is found under its name, with its value and nothing else.
  lemma VariableIsFound(entries: seq<seq<Unit>>, vars: seq<Variable>, up: Upcase, v: Variable)
    requires (forall e | e in entries :: IsEntry(e)) && forall w | w in vars :: NulFree(w)
    requires v in vars && ProperName(v.name)
    ensures var found := Split(Block(Wanted(entries, vars, up)));
            && (exists e | e in found :: Meets(e, v.name, up) && Assigns(e, v.name, v.value))
            && (StartsWithPrefix(v.name, up)
                && (forall w | w in vars && w != v :: ProperName(w.name) && !SameName(w.name, v.name, up)) ==>
                  forall e | e in found && Meets(e, v.name, up) :: Assigns(e, v.name, v.value))
  {
    EnvironmentRoundTrip(entries, vars, up);
    var found := Wanted(entries, vars, up);
    hide Split, Block, Wanted, IsStableSort, Kept, StartsWithPrefix;
    AssignmentAssigns(v);
    WantedExactly(entries, vars, up, Assignment(v));
    assert Meets(Assignment(v), v.name, up);
    if StartsWithPrefix(v.name, up)
       && forall w | w in vars && w != v :: ProperName(w.name) && !SameName(w.name, v.name, up) {
      forall e | e in found && Meets(e, v.name, up) ensures Assigns(e, v.name, v.value) {
        WantedExactly(entries, vars, up, e);
        NameHasPrefix(e, v.name, up);
        var w :| w in vars && Assigns(e, w.name, w.value);
        if w != v {
          AssignmentAssigns(w);
          AssignsOnce(e, Assignment(w), w.name, w.value);
        }
      }
    }
  }

  lemma NameHasPrefix(e: seq<Unit>, name: seq<Unit>, up: Upcase)
    requires Meets(e, name, up) && StartsWithPrefix(name, up)
    ensures StartsWithPrefix(e, up)
  {
    var n := EnvNameLen(e);
    assert forall i | 0 <= i < 10 :: up(e[i]) == up(e[..n][i]);
    assert forall j | 1 <= j < n :: e[j] != EQUALS;
  }

  // No entry of the target starts with the prefix unless it was given.
  lemma OnlyGivenHavePrefix(entries: seq<seq<Unit>>, vars: seq<Variable>, up: Upcase, e: seq<Unit>)
    requires (forall x | x in entries :: IsEntry(x)) && forall w | w in vars :: NulFree(w)
    requires e in Split(Block(Wanted(entries, vars, up))) && StartsWithPrefix(e, up)
    ensures exists v | v in vars :: Assigns(e, v.name, v.value)
  {
    EnvironmentRoundTrip(entries, vars, up);
    WantedExactly(entries, vars, up, e);
    hide Split, Block, Wanted, IsStableSort, Kept, StartsWithPrefix;
  }

  // Under any other name that is not given, a lookup meets exactly what it met before, in the same order.
  lemma OthersAreKept(entries: seq<seq<Unit>>, vars: seq<Variable>, up: Upcase, name: seq<Unit>)
    requires (forall e | e in entries :: IsEntry(e)) && forall w | w in vars :: NulFree(w) && ProperName(w.name)
    requires !StartsWithPrefix(name, up) && forall w | w in vars :: !SameName(w.name, name, up)
    requires forall j | 1 <= j < |name| :: name[j] != '=' as int
    ensures var n := UpcaseAll(name, up);
            Named(Split(Block(Wanted(entries, vars, up))), n, up) == Named(entries, n, up)
  {
    var n := UpcaseAll(name, up);
    EnvironmentRoundTrip(entries, vars, up);
    var a, b := Kept(entries, up), Assignments(vars);
    assert Named(Wanted(entries, vars, up), n, up) == Named(a + b, n, up);
    NamedConcat(a, b, n, up);
    NoneNamed(vars, name, up);
    KeptNamed(entries, name, up);
    hide Split, Block, Wanted, IsStableSort, Kept, Named, Assignments;
  }

  lemma {:induction false} NamedConcat(a: seq<seq<Unit>>, b: seq<seq<Unit>>, n: seq<Unit>, up: Upcase)
    ensures Named(a + b, n, up) == Named(a, n, up) + Named(b, n, up)
  {
    hide Name;
    if a == [] {
      assert a + b == b;
    } else {
      NamedConcat(a[1..], b, n, up);
      assert (a + b)[1..] == a[1..] + b;
    }
  }

  lemma NoneNamed(vars: seq<Variable>, name: seq<Unit>, up: Upcase)
    requires forall w | w in vars :: ProperName(w.name) && !SameName(w.name, name, up)
    ensures Named(Assignments(vars), UpcaseAll(name, up), up) == []
  {
    var es := Assignments(vars);
    forall i | 0 <= i < |es| ensures Name(es[i], up) != UpcaseAll(name, up) {
      assert vars[i] in vars;
      AssignmentAssigns(vars[i]);
      MeetsByName(es[i], name, up);
    }
    NothingNamed(es, UpcaseAll(name, up), up);
  }

  lemma {:induction false} NothingNamed(es: seq<seq<Unit>>, n: seq<Unit>, up: Upcase)
    requires forall i | 0 <= i < |es| :: Name(es[i], up) != n
    ensures Named(es, n, up) == []
  {
    hide Name;
    if es != [] {
      NothingNamed(es[1..], n, up);
    }
  }

  lemma {:induction false} KeptNamed(entries: seq<seq<Unit>>, name: seq<Unit>, up: Upcase)
    requires !StartsWithPrefix(name, up) && forall j | 1 <= j < |name| :: name[j] != '=' as int
    ensures Named(Kept(entries, up), UpcaseAll(name, up), up) == Named(entries, UpcaseAll(name, up), up)
  {
    hide Name, UpcaseAll, StartsWithPrefix;
    if entries != [] {
      var before, e, n := entries[..|entries| - 1], entries[|entries| - 1], UpcaseAll(name, up);
      KeptNamed(before, name, up);
      NamedConcat(before, [e], n, up);
      assert entries == before + [e];
      NamedConcat(Kept(before, up), [e], n, up);
      if IsOurs(e, up) {
        OursIsNotNamed(e, name, up);
        NothingNamed([e], n, up);
      }
      assert Kept(before, up) + [] == Kept(before, up);
    }
  }

  lemma OursIsNotNamed(e: seq<Unit>, name: seq<Unit>, up: Upcase)
    requires IsOurs(e, up) && !StartsWithPrefix(name, up) && forall j | 1 <= j < |name| :: name[j] != '=' as int
    ensures Name(e, up) != UpcaseAll(name, up)
  {
    PrefixIsOurs(e, up);
    MeetsByName(e, name, up);
    if Meets(e, name, up) {
      var n := EnvNameLen(e);
      assert forall i | 0 <= i < n :: up(e[..n][i]) == up(name[i]) && e[..n][i] == e[i];
    }
  }

  // The block ends with two NULs, also when it is empty.
  lemma {:induction false} BlockIsTerminated(entries: seq<seq<Unit>>)
    ensures |Block(entries)| >= 2 && Block(entries)[|Block(entries)| - 1] == Block(entries)[|Block(entries)| - 2] == 0
  {
    if entries != [] {
      JoinEndsWithNul(entries);
    }
    hide Join;
    JoinEmpty(entries);
  }

  lemma {:induction false} JoinEndsWithNul(entries: seq<seq<Unit>>)
    requires entries != []
    ensures Join(entries) != [] && Join(entries)[|Join(entries)| - 1] == 0
  {
    if |entries| > 1 {
      JoinEndsWithNul(entries[1..]);
    }
  }

  // ---- The order --------------------------------------------------------------------------------

  // a comes before b: at the first difference its unit is smaller, or it ends there.
  predicate Before(a: seq<Unit>, b: seq<Unit>) {
    exists k | 0 <= k < |b| :: k <= |a| && a[..k] == b[..k] && (k == |a| || a[k] < b[k])
  }

  lemma {:induction false} LessIsBefore(a: seq<Unit>, b: seq<Unit>)
    ensures Less(a, b) <==> Before(a, b)
  {
    if a != [] && b != [] && a[0] == b[0] {
      LessIsBefore(a[1..], b[1..]);
      if Before(a[1..], b[1..]) {
        var x, y := a[1..], b[1..];
        var k :| 0 <= k < |y| && k <= |x| && x[..k] == y[..k] && (k == |x| || x[k] < y[k]);
        assert a[..k + 1] == [a[0]] + a[1..][..k] && b[..k + 1] == [b[0]] + b[1..][..k];
      }
      if Before(a, b) {
        var k :| 0 <= k < |b| && k <= |a| && a[..k] == b[..k] && (k == |a| || a[k] < b[k]);
        assert k > 0;
        assert a[1..][..k - 1] == a[..k][1..] && b[1..][..k - 1] == b[..k][1..];
      }
    } else if b != [] {
      if Less(a, b) {
        assert a[..0] == b[..0];
      }
      if Before(a, b) {
        var k :| 0 <= k < |b| && k <= |a| && a[..k] == b[..k] && (k == |a| || a[k] < b[k]);
        assert k > 0 ==> a[..k][0] == b[..k][0];
      }
    }
  }

  // The target's entries are in ascending order of their upper-cased names.
  lemma NamesAscend(entries: seq<seq<Unit>>, vars: seq<Variable>, up: Upcase, i: nat, j: nat)
    requires (forall e | e in entries :: IsEntry(e)) && forall w | w in vars :: NulFree(w)
    requires var found := Split(Block(Wanted(entries, vars, up))); i < j < |found|
    ensures var found := Split(Block(Wanted(entries, vars, up))); !Before(Name(found[j], up), Name(found[i], up))
  {
    EnvironmentRoundTrip(entries, vars, up);
    var found := Wanted(entries, vars, up);
    LessIsBefore(Name(found[j], up), Name(found[i], up));
    hide Split, Block, Wanted, Kept, Before, Less, Name;
  }
}
