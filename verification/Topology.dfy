/**
 The starter topology plan (src/kit/topology.cpp, KitTopology::plan and kitManifestProblems): the
 types a selection needs, the filter on their calls, and the problems reported for the result.

 A manifest is a map from type names to the fields used here. An entry of a calls array is a string
 or something else; something else reads as the empty string where the code asks for its text.
 */
module Topology {
  import opened Options
  import opened Sequences

  datatype Entry = Name(name: string) | Other

  function Text(c: Entry): string { if c.Name? then c.name else "" }

  // `parent` is "" when absent.
  datatype Node = Node(kind: string, parent: string, calls: seq<Entry>)

  type Types = map<string, Node>

  function Callees(calls: seq<Entry>): seq<string> {
    if calls == [] then []
    else (if Text(calls[0]) == "*" then [] else [Text(calls[0])]) + Callees(calls[1..])
  }

  // What adding a type adds in turn.
  function Needs(t: Node): seq<string> {
    (if t.parent == "" then [] else [t.parent]) + Callees(t.calls)
  }

  lemma {:induction false} CalleesHolds(calls: seq<Entry>)
    ensures forall d :: d in Callees(calls) <==> exists i :: 0 <= i < |calls| && Text(calls[i]) == d && d != "*"
    decreases |calls|
  {
    if calls != [] {
      CalleesHolds(calls[1..]);
      forall d ensures d in Callees(calls) <==> exists i :: 0 <= i < |calls| && Text(calls[i]) == d && d != "*" {
        if d in Callees(calls[1..]) {
          var i :| 0 <= i < |calls[1..]| && Text(calls[1..][i]) == d && d != "*";
          assert Text(calls[i + 1]) == d;
        }
        if i :| 0 <= i < |calls| && Text(calls[i]) == d && d != "*" {
          if i > 0 { assert Text(calls[1..][i - 1]) == d; }
        }
      }
    }
  }

  // ---- closure ----

  predicate Inside(names: seq<string>, s: set<string>) { forall n :: n in names ==> n in s }

  /** A set of names that holds, with every defined type, its parent and its callees. */
  predicate Closed(all: Types, s: set<string>) {
    forall n :: n in s && n in all ==> Inside(Needs(all[n]), s)
  }

  // The types chosen so far, and the names asked for that are not defined.
  datatype Work = Work(chosen: seq<string>, missing: seq<string>)

  predicate Sound(all: Types, w: Work) {
    Distinct(w.chosen) && (forall n :: n in w.chosen ==> n in all) && (forall n :: n in w.missing ==> n !in all)
  }

  predicate Got(w: Work, names: seq<string>) { forall n :: n in names ==> n in w.chosen || n in w.missing }

  // From `w` to `w'` by adding `names`: they are there, what each new type needs is there, and
  // nothing came in that some closed set with `names` could do without.
  ghost predicate Grew(all: Types, w: Work, w': Work, names: seq<string>) {
    && Sound(all, w') && w.chosen <= w'.chosen && w.missing <= w'.missing
    && Got(w', names)
    && (forall n :: n in w'.chosen && n in all && n !in w.chosen ==> Got(w', Needs(all[n])))
    && (forall s: set<string> :: Closed(all, s) && Inside(names, s) ==>
          Inside(w'.chosen[|w.chosen|..], s) && Inside(w'.missing[|w.missing|..], s))
  }

  lemma GrewByNothing(all: Types, w: Work)
    requires Sound(all, w)
    ensures Grew(all, w, w, [])
  {
  }

  lemma GrewTwice(all: Types, w: Work, w1: Work, w2: Work, first: seq<string>, second: seq<string>)
    requires Grew(all, w, w1, first) && Grew(all, w1, w2, second)
    ensures Grew(all, w, w2, first + second)
  {
    forall s: set<string> | Closed(all, s) && Inside(first + second, s)
      ensures Inside(w2.chosen[|w.chosen|..], s) && Inside(w2.missing[|w.missing|..], s)
    {
      assert forall n :: n in first ==> n in first + second;
      assert forall n :: n in second ==> n in first + second;
      assert Inside(first, s) && Inside(second, s);
      assert w2.chosen[|w.chosen|..] == w1.chosen[|w.chosen|..] + w2.chosen[|w1.chosen|..];
      assert w2.missing[|w.missing|..] == w1.missing[|w.missing|..] + w2.missing[|w1.missing|..];
    }
  }

  lemma GrewByNew(all: Types, w: Work, w': Work, name: string)
    requires Sound(all, w) && name in all && name !in w.chosen
    requires Grew(all, w.(chosen := w.chosen + [name]), w', Needs(all[name]))
    ensures Grew(all, w, w', [name])
  {
    var w1 := w.(chosen := w.chosen + [name]);
    assert w'.chosen[|w.chosen|] == name;
    forall s: set<string> | Closed(all, s) && Inside([name], s)
      ensures Inside(w'.chosen[|w.chosen|..], s) && Inside(w'.missing[|w.missing|..], s)
    {
      assert name in [name];
      assert w'.chosen[|w.chosen|..] == [name] + w'.chosen[|w1.chosen|..];
    }
  }

  lemma GrewByMissing(all: Types, w: Work, name: string)
    requires Sound(all, w) && name !in all
    ensures Grew(all, w, w.(missing := w.missing + [name]), [name])
  {
    var w' := w.(missing := w.missing + [name]);
    assert w'.missing[|w.missing|..] == [name];
  }

  lemma GrewByKnown(all: Types, w: Work, name: string)
    requires Sound(all, w) && name in w.chosen
    ensures Grew(all, w, w, [name])
  {
  }

  // How many types are not chosen yet.
  function Room(all: Types, chosen: seq<string>): nat { |all.Keys - (set n | n in chosen)| }

  lemma RoomShrinks(all: Types, a: seq<string>, b: seq<string>)
    requires forall n :: n in a ==> n in b
    ensures Room(all, b) <= Room(all, a)
    ensures (exists n :: n in all && n in b && n !in a) ==> Room(all, b) < Room(all, a)
  {
    var left, less := all.Keys - (set n | n in a), all.Keys - (set n | n in b);
    Fewer(less, left);
    if n :| n in all && n in b && n !in a {
      Fewer(less, left - {n});
    }
  }

  lemma GrewByOneMore(all: Types, w: Work, w1: Work, w2: Work, names: seq<string>, i: nat)
    requires i < |names| && Grew(all, w, w1, names[..i]) && Grew(all, w1, w2, [names[i]])
    ensures Grew(all, w, w2, names[..i + 1]) && Room(all, w2.chosen) <= Room(all, w1.chosen)
  {
    GrewTwice(all, w, w1, w2, names[..i], [names[i]]);
    assert names[..i + 1] == names[..i] + [names[i]];
    RoomShrinks(all, w1.chosen, w2.chosen);
  }

  class Planner {
    const all: Types
    var chosen: seq<string>
    var missing: seq<string>

    ghost function View(): Work
      reads this
    {
      Work(chosen, missing)
    }

    constructor (all: Types)
      ensures this.all == all && View() == Work([], [])
    {
      this.all := all;
      chosen, missing := [], [];
    }

    /** The recursive `add`; it ends on every manifest, cycles included. */
    method Add(name: string)
      requires Sound(all, View())
      modifies this
      ensures Grew(all, old(View()), View(), [name])
      decreases Room(all, chosen), 0
    {
      ghost var w := View();
      if name in chosen {
        GrewByKnown(all, w, name);
        return;
      }
      if name !in all {
        missing := missing + [name];
        GrewByMissing(all, w, name);
        return;
      }
      chosen := chosen + [name];
      RoomShrinks(all, w.chosen, chosen);
      AddAll(Needs(all[name]));
      GrewByNew(all, w, View(), name);
    }

    method AddAll(names: seq<string>)
      requires Sound(all, View())
      modifies this
      ensures Grew(all, old(View()), View(), names)
      decreases Room(all, chosen), 1
    {
      ghost var w := View();
      GrewByNothing(all, w);
      for i := 0 to |names|
        invariant Sound(all, View()) && Grew(all, w, View(), names[..i])
        invariant Room(all, chosen) <= Room(all, w.chosen)
      {
        ghost var w1 := View();
        Add(names[i]);
        GrewByOneMore(all, w, w1, View(), names, i);
      }
      assert names[..|names|] == names;
    }
  }

  function SetOf(names: seq<string>): set<string> { set n | n in names }

  /** The least closed set that holds `seeds`. */
  ghost predicate Least(all: Types, seeds: seq<string>, s: set<string>) {
    && Inside(seeds, s) && Closed(all, s)
    && forall t: set<string> :: Inside(seeds, t) && Closed(all, t) ==> s <= t
  }

  lemma GrewIsLeast(all: Types, w: Work, seeds: seq<string>)
    requires Grew(all, Work([], []), w, seeds)
    ensures w.missing == [] ==> Least(all, seeds, SetOf(w.chosen))
    ensures w.missing == [] <==> exists s: set<string> :: Inside(seeds, s) && Closed(all, s) && s <= all.Keys
  {
    assert w.chosen[0..] == w.chosen && w.missing[0..] == w.missing;
    if w.missing == [] {
      assert Inside(seeds, SetOf(w.chosen)) && Closed(all, SetOf(w.chosen)) && SetOf(w.chosen) <= all.Keys;
    } else {
      assert w.missing[0] in w.missing;
    }
  }

  /**
   The selection and what it needs: without repeats, and exactly the least set holding the root and
   the selection closed under parent and named calls. A name is missing exactly if no set of
   defined types is closed around them.
   */
  method Choose(all: Types, root: string, select: seq<string>) returns (chosen: seq<string>, missing: seq<string>)
    ensures Distinct(chosen)
    ensures missing == [] ==> Least(all, [root] + select, SetOf(chosen)) && SetOf(chosen) <= all.Keys
    ensures missing == [] <==> exists s: set<string> :: Inside([root] + select, s) && Closed(all, s) && s <= all.Keys
  {
    var p := new Planner(all);
    p.Add(root);
    ghost var w := p.View();
    p.AddAll(select);
    GrewTwice(all, Work([], []), w, p.View(), [root], select);
    GrewIsLeast(all, p.View(), [root] + select);
    return p.chosen, p.missing;
  }

  // ---- the planned types ----

  // The fields an override sets; a calls override that is no array leaves nothing to call.
  datatype Override = Override(kind: Option<string>, parent: Option<string>, calls: Option<seq<Entry>>)

  function Or<T>(o: Option<T>, t: T): T { if o.Some? then o.value else t }

  predicate Kept(c: Entry, chosen: seq<string>) { c.Name? && (c.name == "*" || c.name in chosen) }

  function Filtered(calls: seq<Entry>, chosen: seq<string>): seq<Entry> {
    if calls == [] then []
    else (if Kept(calls[0], chosen) then [calls[0]] else []) + Filtered(calls[1..], chosen)
  }

  function Merged(t: Node, name: string, overrides: map<string, Override>): Node {
    if name !in overrides then t
    else
      var o := overrides[name];
      Node(Or(o.kind, t.kind), Or(o.parent, t.parent), Or(o.calls, t.calls))
  }

  function Planned(all: Types, chosen: seq<string>, overrides: map<string, Override>): Types {
    map n | n in chosen && n in all ::
      var t := Merged(all[n], n, overrides); t.(calls := Filtered(t.calls, chosen))
  }

  method KeepCalls(calls: seq<Entry>, chosen: seq<string>) returns (kept: seq<Entry>)
    ensures kept == Filtered(calls, chosen)
  {
    kept := [];
    for i := 0 to |calls|
      invariant kept + Filtered(calls[i..], chosen) == Filtered(calls, chosen)
    {
      ghost var rest := Filtered(calls[i + 1..], chosen);
      assert Filtered(calls[i..], chosen) == (if Kept(calls[i], chosen) then [calls[i]] else []) + rest by {
        assert calls[i..][0] == calls[i] && calls[i..][1..] == calls[i + 1..];
      }
      assert kept + ([calls[i]] + rest) == kept + [calls[i]] + rest && [] + rest == rest;
      if calls[i].Name? && (calls[i].name == "*" || calls[i].name in chosen) {
        kept := kept + [calls[i]];
      }
    }
  }

  method BuildTypes(all: Types, chosen: seq<string>, overrides: map<string, Override>) returns (types: Types)
    requires Inside(chosen, all.Keys)
    ensures types == Planned(all, chosen, overrides)
  {
    types := map[];
    for i := 0 to |chosen|
      invariant forall n :: n in types <==> n in chosen[..i]
      invariant forall n :: n in types ==> n in chosen && n in all && types[n] == Planned(all, chosen, overrides)[n]
    {
      var name := chosen[i];
      var merged := Merged(all[name], name, overrides);
      var kept := KeepCalls(merged.calls, chosen);
      types := types[name := merged.(calls := kept)];
    }
  }

  // ---- the problems of a manifest ----

  datatype Problem =
    | RootUndefined | RootNotHub | RootHasParent
    | BadName(name: string) | NoParent(name: string)
    | UndefinedParent(name: string, parent: string) | UndefinedCallee(name: string, callee: string)

  predicate ValidName(name: string) {
    1 <= |name| <= 64 && forall i :: 0 <= i < |name| ==>
      'a' <= name[i] <= 'z' || 'A' <= name[i] <= 'Z' || '0' <= name[i] <= '9' || name[i] == '_' || name[i] == '-'
  }

  function RootProblems(root: string, types: Types): seq<Problem> {
    if root !in types then [RootUndefined]
    else if types[root].kind != "hub" then [RootNotHub]
    else if types[root].parent != "" then [RootHasParent]
    else []
  }

  function CallProblems(name: string, types: Types, calls: seq<Entry>): seq<Problem> {
    if calls == [] then []
    else
      var callee := Text(calls[0]);
      (if callee != "*" && callee !in types then [UndefinedCallee(name, callee)] else [])
        + CallProblems(name, types, calls[1..])
  }

  function ParentProblems(name: string, root: string, types: Types): seq<Problem>
    requires name in types
  {
    var parent := types[name].parent;
    if name == root then []
    else if parent == "" then [NoParent(name)]
    else if parent !in types then [UndefinedParent(name, parent)]
    else []
  }

  function TypeProblems(name: string, root: string, types: Types): seq<Problem>
    requires name in types
  {
    (if ValidName(name) then [] else [BadName(name)]) + ParentProblems(name, root, types)
      + CallProblems(name, types, types[name].calls)
  }

  /** `names` lists the types in the order they are visited. */
  function ManifestProblems(root: string, types: Types, names: seq<string>): seq<Problem>
    requires Inside(names, types.Keys)
    decreases |names|
  {
    if names == [] then RootProblems(root, types)
    else ManifestProblems(root, types, names[..|names| - 1]) + TypeProblems(names[|names| - 1], root, types)
  }

  lemma {:induction false} ManifestProblemsHolds(root: string, types: Types, names: seq<string>, p: Problem)
    requires Inside(names, types.Keys)
    ensures p in ManifestProblems(root, types, names) <==>
      p in RootProblems(root, types) || exists n :: n in names && p in TypeProblems(n, root, types)
    decreases |names|
  {
    if names != [] {
      var front, last := names[..|names| - 1], names[|names| - 1];
      ManifestProblemsHolds(root, types, front, p);
      assert forall n :: n in names <==> n in front || n == last;
    }
  }

  lemma {:induction false} FilteredCallsAreFine(name: string, types: Types, calls: seq<Entry>, chosen: seq<string>)
    requires Inside(chosen, types.Keys)
    ensures CallProblems(name, types, Filtered(calls, chosen)) == []
    decreases |calls|
  {
    if calls != [] {
      FilteredCallsAreFine(name, types, calls[1..], chosen);
      if Kept(calls[0], chosen) {
        assert Filtered(calls, chosen)[1..] == Filtered(calls[1..], chosen);
      } else {
        assert Filtered(calls, chosen) == Filtered(calls[1..], chosen);
      }
    }
  }

  /** Whatever the overrides, no planned type is reported to call an undefined one. */
  lemma NoUndefinedCallee(all: Types, root: string, chosen: seq<string>,
      overrides: map<string, Override>, names: seq<string>, p: Problem)
    requires Inside(chosen, all.Keys) && Inside(names, SetOf(chosen))
    ensures p.UndefinedCallee? ==> p !in ManifestProblems(root, Planned(all, chosen, overrides), names)
  {
    var types := Planned(all, chosen, overrides);
    ManifestProblemsHolds(root, types, names, p);
    if p.UndefinedCallee? {
      forall n | n in names ensures p !in TypeProblems(n, root, types) {
        FilteredCallsAreFine(n, types, Merged(all[n], n, overrides).calls, chosen);
        CalleeProblem(n, root, types, p);
      }
    }
  }

  lemma CalleeProblem(m: string, root: string, types: Types, p: Problem)
    requires m in types && CallProblems(m, types, types[m].calls) == [] && p.UndefinedCallee?
    ensures p !in TypeProblems(m, root, types) && p !in RootProblems(root, types)
  {
    assert TypeProblems(m, root, types) ==
      (if ValidName(m) then [] else [BadName(m)]) + ParentProblems(m, root, types);
  }

  /** An undefined parent is reported exactly for a type whose override names one that is not chosen. */
  lemma UndefinedParentIff(all: Types, root: string, chosen: seq<string>,
      overrides: map<string, Override>, names: seq<string>, n: string, parent: string)
    requires SetOf(chosen) <= all.Keys && Closed(all, SetOf(chosen))
    requires SetOf(names) == SetOf(chosen)
    ensures UndefinedParent(n, parent) in ManifestProblems(root, Planned(all, chosen, overrides), names) <==>
      && n in chosen && n != root && parent != "" && parent !in chosen
      && n in overrides && overrides[n].parent == Some(parent)
  {
    var types := Planned(all, chosen, overrides);
    assert forall m :: m in names <==> m in SetOf(names);
    assert forall m :: m in chosen <==> m in SetOf(chosen);
    assert forall m :: m in types <==> m in chosen;
    forall m | m in names ensures CallProblems(m, types, types[m].calls) == [] {
      FilteredCallsAreFine(m, types, Merged(all[m], m, overrides).calls, chosen);
    }
    ParentIsReportedIff(root, types, names, n, parent);
    if n in chosen { OwnParentIsChosen(all, chosen, n); }
  }

  lemma ParentIsReportedIff(root: string, types: Types, names: seq<string>, n: string, parent: string)
    requires Inside(names, types.Keys)
    requires forall m :: m in names ==> CallProblems(m, types, types[m].calls) == []
    ensures UndefinedParent(n, parent) in ManifestProblems(root, types, names) <==>
      n in names && n != root && types[n].parent == parent && parent != "" && parent !in types
  {
    ManifestProblemsHolds(root, types, names, UndefinedParent(n, parent));
    forall m | m in names
      ensures UndefinedParent(n, parent) in TypeProblems(m, root, types) <==>
        m == n && n != root && types[n].parent == parent && parent != "" && parent !in types
    {
      ParentProblem(m, root, types, n, parent);
    }
  }

  lemma ParentProblem(m: string, root: string, types: Types, n: string, parent: string)
    requires m in types && CallProblems(m, types, types[m].calls) == []
    ensures UndefinedParent(n, parent) in TypeProblems(m, root, types) <==>
      m == n && n != root && types[n].parent == parent && parent != "" && parent !in types
  {
  }

  lemma OwnParentIsChosen(all: Types, chosen: seq<string>, n: string)
    requires n in all && n in chosen && Closed(all, SetOf(chosen))
    ensures all[n].parent == "" || all[n].parent in chosen
  {
    assert n in SetOf(chosen);
    assert all[n].parent != "" ==> all[n].parent in Needs(all[n]);
  }

  lemma {:induction false} FilterKeepsAll(calls: seq<Entry>, chosen: seq<string>)
    requires forall d :: d in Callees(calls) ==> d in chosen
    ensures Filtered(calls, chosen) == calls <==> forall i :: 0 <= i < |calls| ==> calls[i].Name?
    ensures |Filtered(calls, chosen)| <= |calls|
    decreases |calls|
  {
    if calls != [] {
      var rest := calls[1..];
      FilterKeepsAll(rest, chosen);
      assert calls == [calls[0]] + rest;
      assert (forall i :: 0 <= i < |calls| ==> calls[i].Name?) <==>
        calls[0].Name? && forall i :: 0 <= i < |rest| ==> rest[i].Name?;
      if calls[0].Name? {
        assert calls[0].name != "*" ==> calls[0].name in Callees(calls);
      }
    }
  }

  /**
   Without overrides the filter leaves a chosen type's calls alone exactly if they are all strings,
   for the calls of a chosen type are chosen too.
   */
  lemma FilterChangesNothingIff(all: Types, chosen: seq<string>, n: string)
    requires SetOf(chosen) <= all.Keys && Closed(all, SetOf(chosen)) && n in chosen
    ensures Filtered(all[n].calls, chosen) == all[n].calls <==>
      forall i :: 0 <= i < |all[n].calls| ==> all[n].calls[i].Name?
  {
    assert n in SetOf(chosen);
    assert forall d :: d in Callees(all[n].calls) ==> d in Needs(all[n]) && d in SetOf(chosen);
    FilterKeepsAll(all[n].calls, chosen);
  }

  /** A plan with no problems and no overrides is the starter manifest, restricted to what was chosen. */
  lemma CleanPlanIsTheManifest(all: Types, root: string, chosen: seq<string>, names: seq<string>)
    requires SetOf(chosen) <= all.Keys && Closed(all, SetOf(chosen)) && SetOf(names) == SetOf(chosen)
    requires Inside(names, Planned(all, chosen, map[]).Keys)
    requires ManifestProblems(root, Planned(all, chosen, map[]), names) == []
    ensures Planned(all, chosen, map[]) == Restricted(all, chosen)
  {
    assert "" in chosen ==> "" in SetOf(chosen) && "" in SetOf(names) && "" in names;
    NamesAreValid(root, Planned(all, chosen, map[]), names);
    UnfilteredPlan(all, chosen);
  }

  function Restricted(all: Types, chosen: seq<string>): Types { map n | n in chosen && n in all :: all[n] }

  lemma UnfilteredPlan(all: Types, chosen: seq<string>)
    requires SetOf(chosen) <= all.Keys && Closed(all, SetOf(chosen)) && "" !in chosen
    ensures Planned(all, chosen, map[]) == Restricted(all, chosen)
  {
    forall n | n in chosen && n in all ensures Planned(all, chosen, map[])[n] == all[n] {
      CallsAreStrings(all, chosen, n);
      FilterChangesNothingIff(all, chosen, n);
    }
  }

  lemma NamesAreValid(root: string, types: Types, names: seq<string>)
    requires Inside(names, types.Keys) && ManifestProblems(root, types, names) == []
    ensures forall n :: n in names ==> ValidName(n)
  {
    forall n | n in names ensures ValidName(n) {
      ManifestProblemsHolds(root, types, names, BadName(n));
      assert BadName(n) !in TypeProblems(n, root, types);
    }
  }

  lemma CallsAreStrings(all: Types, chosen: seq<string>, n: string)
    requires n in all && n in chosen && Closed(all, SetOf(chosen)) && "" !in chosen
    ensures forall i :: 0 <= i < |all[n].calls| ==> all[n].calls[i].Name?
  {
    assert n in SetOf(chosen);
    CalleesHolds(all[n].calls);
    assert forall d :: d in Callees(all[n].calls) ==> d in Needs(all[n]) && d in SetOf(chosen);
    assert "" !in Callees(all[n].calls);
    forall i | 0 <= i < |all[n].calls| ensures all[n].calls[i].Name? {
      assert Text(all[n].calls[i]) != "";
    }
  }
}
