/** The upsert helpers the StatefulSet transform is made of.

    Every list entry is an Item: a name, the non-empty leaves that a merge with override carries
    over one by one, and a part that an upsert replaces as a whole. Environment variables, volume
    mounts and owner references have no leaves: they are replaced entirely. */
module Upserts {
  import opened Common

  type Name = nat
  type Field = nat
  type Value = nat

  datatype Item<R> = Item(name: Name, leaves: map<Field, Value>, own: R)

  function IndexOf<R>(xs: seq<Item<R>>, name: Name): (i: int)
    ensures i == -1 || 0 <= i < |xs|
    ensures i != -1 ==> xs[i].name == name && forall j | 0 <= j < i :: xs[j].name != name
    ensures i == -1 ==> forall j | 0 <= j < |xs| :: xs[j].name != name
  {
    if xs == [] then -1
    else if xs[0].name == name then 0
    else
      var i := IndexOf(xs[1..], name);
      assert forall j | 0 <= j < |xs| - 1 :: xs[1..][j] == xs[j + 1];
      if i == -1 then -1 else i + 1
  }

  predicate Has<R>(xs: seq<Item<R>>, name: Name) {
    IndexOf(xs, name) != -1
  }

  function Look<R>(xs: seq<Item<R>>, name: Name): Option<Item<R>> {
    var i := IndexOf(xs, name);
    if i == -1 then None else Some(xs[i])
  }

  function Merge<R>(x: Item<R>, u: Item<R>): Item<R> {
    Item(x.name, x.leaves + u.leaves, u.own)
  }

  /** Merge into the first entry of that name, or append. */
  function Upsert<R>(xs: seq<Item<R>>, u: Item<R>): (r: seq<Item<R>>) {
    var i := IndexOf(xs, u.name);
    if i == -1 then xs + [u] else xs[i := Merge(xs[i], u)]
  }

  function UpsertAll<R>(xs: seq<Item<R>>, us: seq<Item<R>>): seq<Item<R>> {
    if us == [] then xs else Upsert(UpsertAll(xs, Front(us)), Last(us))
  }

  method UpsertEach<R>(xs: seq<Item<R>>, us: seq<Item<R>>) returns (r: seq<Item<R>>)
    ensures r == UpsertAll(xs, us)
  {
    r := xs;
    for k := 0 to |us|
      invariant r == UpsertAll(xs, us[..k])
    {
      assert Front(us[..k + 1]) == us[..k];
      var i := 0;
      while i < |r| && r[i].name != us[k].name
        invariant 0 <= i <= |r|
        invariant forall j | 0 <= j < i :: r[j].name != us[k].name
      {
        i := i + 1;
      }
      if i < |r| {
        assert IndexOf(r, us[k].name) == i;
        r := r[i := Merge(r[i], us[k])];
      } else {
        r := r + [us[k]];
      }
    }
    assert us[..|us|] == us;
  }

  /* ---------- what an upsert changes ---------- */

  /** Names stay where they are, and only the first entry of the upserted name changes. */
  ghost predicate Extends<R>(xs: seq<Item<R>>, r: seq<Item<R>>) {
    |xs| <= |r| && forall i | 0 <= i < |xs| :: r[i].name == xs[i].name
  }

  lemma FirstStaysFirst<R>(xs: seq<Item<R>>, r: seq<Item<R>>, name: Name)
    requires Extends(xs, r)
    ensures Has(xs, name) ==> IndexOf(r, name) == IndexOf(xs, name)
    ensures !Has(xs, name) && Has(r, name) ==> IndexOf(r, name) >= |xs|
  {
    var i := IndexOf(xs, name);
    assert i != -1 ==> r[i].name == name;
    assert forall k | 0 <= k < |xs| :: r[k].name == xs[k].name;
  }

  lemma UpsertLook<R>(xs: seq<Item<R>>, u: Item<R>, name: Name)
    ensures Extends(xs, Upsert(xs, u))
    ensures forall i | 0 <= i < |xs| && i != IndexOf(xs, u.name) :: Upsert(xs, u)[i] == xs[i]
    ensures |Upsert(xs, u)| == |xs| + (if Has(xs, u.name) then 0 else 1)
    ensures Look(Upsert(xs, u), name) ==
              if name != u.name then Look(xs, name)
              else if Has(xs, name) then Some(Merge(Look(xs, name).value, u)) else Some(u)
  {
    var r := Upsert(xs, u);
    var i := IndexOf(xs, u.name);
    FirstStaysFirst(xs, r, name);
    if i == -1 {
      assert r[|xs|].name == u.name;
      if name == u.name {
        assert IndexOf(r, name) == |xs|;
      }
    }
  }

  /** The updates meant for one name, in order. */
  function For<R>(us: seq<Item<R>>, name: Name): (r: seq<Item<R>>)
    ensures forall u <- r :: u.name == name
  {
    if us == [] then []
    else For(Front(us), name) + (if Last(us).name == name then [Last(us)] else [])
  }

  /** What a series of updates makes of an entry, or of its absence. */
  function Folded<R>(x: Option<Item<R>>, us: seq<Item<R>>): Option<Item<R>> {
    if us == [] then x
    else
      var before := Folded(x, Front(us));
      if before.None? then Some(Last(us)) else Some(Merge(before.value, Last(us)))
  }

  lemma {:induction false} UpsertAllLook<R>(xs: seq<Item<R>>, us: seq<Item<R>>, name: Name)
    ensures Look(UpsertAll(xs, us), name) == Folded(Look(xs, name), For(us, name))
  {
    if us != [] {
      UpsertAllLook(xs, Front(us), name);
      UpsertLook(UpsertAll(xs, Front(us)), Last(us), name);
      if Last(us).name == name {
        assert Front(For(us, name)) == For(Front(us), name);
      } else {
        assert For(us, name) == For(Front(us), name);
      }
    }
  }

  /** Entries of other names, and all but the first of a name, are left alone. */
  ghost predicate Spares<R>(xs: seq<Item<R>>, r: seq<Item<R>>, us: seq<Item<R>>) {
    && Extends(xs, r)
    && (forall i | 0 <= i < |xs| && (i != IndexOf(xs, xs[i].name) || For(us, xs[i].name) == []) :: r[i] == xs[i])
    && (forall i | |xs| <= i < |r| :: For(us, r[i].name) != [])
  }

  lemma {:induction false} UpsertAllSpares<R>(xs: seq<Item<R>>, us: seq<Item<R>>)
    ensures Spares(xs, UpsertAll(xs, us), us)
  {
    if us != [] {
      var before, u := UpsertAll(xs, Front(us)), Last(us);
      UpsertAllSpares(xs, Front(us));
      UpsertLook(before, u, u.name);
      var r := Upsert(before, u);
      forall i | 0 <= i < |xs|
        ensures r[i].name == xs[i].name
        ensures i != IndexOf(xs, xs[i].name) || For(us, xs[i].name) == [] ==> r[i] == xs[i]
      {
        FirstStaysFirst(xs, before, u.name);
        assert before[i].name == xs[i].name;
        assert i < |before| && (i != IndexOf(before, u.name) ==> r[i] == before[i]);
      }
    }
  }

  /** Two lists that agree entry by entry on names, beyond first entries, and on look-ups. */
  lemma SameByLook<R>(xs: seq<Item<R>>, r: seq<Item<R>>)
    requires |r| == |xs| && Extends(xs, r)
    requires forall i | 0 <= i < |xs| && i != IndexOf(xs, xs[i].name) :: r[i] == xs[i]
    requires forall name :: Look(r, name) == Look(xs, name)
    ensures r == xs
  {
    forall i | 0 <= i < |xs|
      ensures r[i] == xs[i]
    {
      if i == IndexOf(xs, xs[i].name) {
        FirstStaysFirst(xs, r, xs[i].name);
        assert Look(r, xs[i].name) == Look(xs, xs[i].name);
      }
    }
  }

  /* ---------- a series of upserts, twice ---------- */

  function Union<R>(us: seq<Item<R>>): map<Field, Value> {
    if us == [] then map[] else Union(Front(us)) + Last(us).leaves
  }

  lemma {:induction false} FoldedInClosedForm<R>(x: Option<Item<R>>, us: seq<Item<R>>, name: Name)
    requires us != [] && (forall u <- us :: u.name == name) && (x.Some? ==> x.value.name == name)
    ensures Folded(x, us) == Some(Item(name, (if x.Some? then x.value.leaves else map[]) + Union(us), Last(us).own))
  {
    if |us| > 1 {
      FoldedInClosedForm(x, Front(us), name);
      var m := if x.Some? then x.value.leaves else map[];
      assert (m + Union(Front(us))) + Last(us).leaves == m + Union(us);
    } else {
      assert Front(us) == [] && Folded(x, []) == x;
      assert Union(us) == map[] + us[0].leaves == us[0].leaves;
      assert map[] + us[0].leaves == us[0].leaves;
    }
  }

  lemma FoldedTwice<R>(x: Option<Item<R>>, us: seq<Item<R>>, name: Name)
    requires (forall u <- us :: u.name == name) && (x.Some? ==> x.value.name == name)
    ensures Folded(Folded(x, us), us) == Folded(x, us)
  {
    if us != [] {
      FoldedInClosedForm(x, us, name);
      FoldedInClosedForm(Folded(x, us), us, name);
      var m := if x.Some? then x.value.leaves else map[];
      assert (m + Union(us)) + Union(us) == m + Union(us);
    }
  }

  lemma {:induction false} PresentAfterwards<R>(xs: seq<Item<R>>, us: seq<Item<R>>, name: Name)
    ensures Has(UpsertAll(xs, us), name) <==> Has(xs, name) || For(us, name) != []
  {
    if us != [] {
      PresentAfterwards(xs, Front(us), name);
      UpsertLook(UpsertAll(xs, Front(us)), Last(us), name);
    }
  }

  /** Nothing is appended when every name is there already. */
  lemma {:induction false} NoGrowth<R>(xs: seq<Item<R>>, us: seq<Item<R>>)
    requires forall u <- us :: Has(xs, u.name)
    ensures |UpsertAll(xs, us)| == |xs|
  {
    if us != [] {
      NoGrowth(xs, Front(us));
      PresentAfterwards(xs, Front(us), Last(us).name);
      UpsertLook(UpsertAll(xs, Front(us)), Last(us), 0);
    }
  }

  lemma {:induction false} ForIsThere<R>(us: seq<Item<R>>, u: Item<R>)
    requires u in us
    ensures For(us, u.name) != []
  {
    if Last(us) != u {
      assert u in Front(us);
      ForIsThere(Front(us), u);
    }
  }

  /** Upserting the same entries a second time changes nothing, whatever the list held before,
      duplicate names and repeated updates included. */
  lemma UpsertAllTwice<R(!new)>(xs: seq<Item<R>>, us: seq<Item<R>>)
    ensures UpsertAll(UpsertAll(xs, us), us) == UpsertAll(xs, us)
  {
    var once := UpsertAll(xs, us);
    var twice := UpsertAll(once, us);
    forall u | u in us
      ensures Has(once, u.name)
    {
      ForIsThere(us, u);
      PresentAfterwards(xs, us, u.name);
    }
    NoGrowth(once, us);
    UpsertAllSpares(once, us);
    forall name
      ensures Look(twice, name) == Look(once, name)
    {
      UpsertAllLook(xs, us, name);
      UpsertAllLook(once, us, name);
      FoldedTwice(Look(xs, name), For(us, name), name);
    }
    SameByLook(once, twice);
  }

  lemma {:induction false} UpsertAllConcat<R>(xs: seq<Item<R>>, us: seq<Item<R>>, vs: seq<Item<R>>)
    ensures UpsertAll(xs, us + vs) == UpsertAll(UpsertAll(xs, us), vs)
  {
    if vs == [] {
      assert us + vs == us;
    } else {
      UpsertAllConcat(xs, us, Front(vs));
      assert Front(us + vs) == us + Front(vs) && Last(us + vs) == Last(vs);
    }
  }

  /* ---------- argument lists ---------- */

  /** "--name=value", or anything else. */
  datatype Arg = Flag(name: string, value: string) | Plain(text: string)

  function LastFlag(args: seq<Arg>, name: string): (i: int)
    ensures i == -1 || (0 <= i < |args| && args[i].Flag? && args[i].name == name)
    ensures forall j | i < j < |args| :: !(args[j].Flag? && args[j].name == name)
  {
    if args == [] then -1
    else if Last(args).Flag? && Last(args).name == name then |args| - 1
    else LastFlag(Front(args), name)
  }

  /** Overriding flags take the place of the last base argument of that flag; everything else is
      appended, flags that only the overrides know included. */
  function UpsertArgs(base: seq<Arg>, overrides: seq<Arg>): (out: seq<Arg>)
    ensures |base| <= |out|
  {
    if overrides == [] then base
    else
      var out := UpsertArgs(base, Front(overrides));
      var a := Last(overrides);
      if a.Flag? && LastFlag(base, a.name) != -1 then out[LastFlag(base, a.name) := a] else out + [a]
  }

  method UpsertArgumentList(base: seq<Arg>, overrides: seq<Arg>) returns (out: seq<Arg>)
    ensures out == UpsertArgs(base, overrides)
  {
    out := [];
    var baseMap: map<string, int> := map[];
    for i := 0 to |base|
      invariant out == base[..i]
      invariant forall f :: (f in baseMap <==> LastFlag(base[..i], f) != -1) && (f in baseMap ==> baseMap[f] == LastFlag(base[..i], f))
    {
      assert Front(base[..i + 1]) == base[..i];
      out := out + [base[i]];
      if base[i].Flag? {
        baseMap := baseMap[base[i].name := i];
      }
    }
    assert base[..|base|] == base;
    for k := 0 to |overrides|
      invariant out == UpsertArgs(base, overrides[..k])
    {
      assert Front(overrides[..k + 1]) == overrides[..k];
      var arg := overrides[k];
      if arg.Flag? && arg.name in baseMap {
        out := out[baseMap[arg.name] := arg];
      } else {
        out := out + [arg];
      }
    }
    assert overrides[..|overrides|] == overrides;
  }

  /** What a command line that takes the last occurrence of a flag makes of the list. */
  function ValueOf(args: seq<Arg>, name: string): Option<string> {
    var i := LastFlag(args, name);
    if i == -1 then None else Some(args[i].value)
  }

  lemma {:induction false} PlacesStay(base: seq<Arg>, overrides: seq<Arg>)
    ensures var out := UpsertArgs(base, overrides);
            forall i | 0 <= i < |base| ::
              if base[i].Plain? then out[i] == base[i] else out[i].Flag? && out[i].name == base[i].name
  {
    if overrides != [] {
      PlacesStay(base, Front(overrides));
    }
  }

  lemma AppendedFlag(args: seq<Arg>, a: Arg, name: string)
    ensures LastFlag(args + [a], name) == if a.Flag? && a.name == name then |args| else LastFlag(args, name)
  {
    assert Front(args + [a]) == args && Last(args + [a]) == a;
  }

  lemma ReplacedFlag(args: seq<Arg>, i: nat, a: Arg, name: string)
    requires i < |args| && a.Flag? && args[i].Flag? && args[i].name == a.name
    ensures LastFlag(args[i := a], name) == LastFlag(args, name)
  {
    LastFlagIs(args[i := a], name, LastFlag(args, name));
  }

  /** Every flag ends up with the overriding value if there is one, else with the base value. */
  lemma {:induction false} OverridesWin(base: seq<Arg>, overrides: seq<Arg>, name: string)
    ensures ValueOf(UpsertArgs(base, overrides), name) ==
              if ValueOf(overrides, name).Some? then ValueOf(overrides, name) else ValueOf(base, name)
    ensures LastFlag(base, name) != -1 ==> LastFlag(UpsertArgs(base, overrides), name) == LastFlag(base, name)
  {
    if overrides != [] {
      var before, a := UpsertArgs(base, Front(overrides)), Last(overrides);
      OverridesWin(base, Front(overrides), name);
      if a.Flag? && LastFlag(base, a.name) != -1 {
        PlacesStay(base, Front(overrides));
        ReplacedFlag(before, LastFlag(base, a.name), a, name);
      } else {
        AppendedFlag(before, a, name);
      }
    }
  }

  lemma LastFlagIs(args: seq<Arg>, name: string, i: int)
    requires i == -1 || (0 <= i < |args| && args[i].Flag? && args[i].name == name)
    requires forall j | i < j < |args| :: !(args[j].Flag? && args[j].name == name)
    ensures LastFlag(args, name) == i
  {
    var l := LastFlag(args, name);
  }

  /** One flag, twice. */
  lemma UpsertFlagTwice(args: seq<Arg>, a: Arg)
    requires a.Flag?
    ensures UpsertArgs(UpsertArgs(args, [a]), [a]) == UpsertArgs(args, [a])
  {
    assert Front([a]) == [] && UpsertArgs(args, []) == args;
    var once := UpsertArgs(args, [a]);
    var i := LastFlag(args, a.name);
    LastFlagIs(once, a.name, if i == -1 then |args| else i);
    assert UpsertArgs(once, []) == once;
  }
}
