/** The depth-first search that decides whether an optional feature is installed. One set
    of seen keys is shared by the whole search, so a cycle ends it. Every part of the
    search is proved to do what the function of the same part says. */
module OptionalFeatures {
  import opened DependencyGraph
  import opened DependencySearch
  import opened Wrappers

  /** The shared `seen` set. `first` records the requirement each key was seen with. */
  class Seen {
    var keys: set<Key>
    ghost var first: SeenMap

    ghost predicate Valid()
      reads this
    {
      first.Keys == keys
    }

    constructor ()
      ensures Valid() && first == map[]
    {
      keys, first := {}, map[];
    }

    method Add(req: Req)
      requires Valid()
      modifies this
      ensures Valid() && first == old(first)[KeyOf(req) := req]
    {
      keys, first := keys + {KeyOf(req)}, first[KeyOf(req) := req];
    }
  }

  /** `_requirement_installed`. */
  method RequirementInstalled(
      w: World, req: Req, extra: string, seen: Seen, ghost universe: set<Key>) returns (ok: bool)
    requires seen.Valid() && Within(universe, seen.first) && Covers(w, universe) && KeyOf(req) in universe
    modifies seen
    ensures seen.Valid()
    ensures Visit(w, universe, req, extra, old(seen.first)) == if ok then Some(seen.first) else None
    decreases universe - seen.keys, 1
  {
    if req.marker.Some? && !w.evaluate(req.marker.value, extra) { return true; }
    if KeyOf(req) in seen.keys { return true; }
    seen.Add(req);
    if req.name !in w.dists { return false; }
    if req.specifier.Some? && !w.contains(req.specifier.value, w.dists[req.name].version) { return false; }
    assert seen.keys == old(seen.keys) + {KeyOf(req)};
    var k := 0;
    while k < |req.extras|
      invariant 0 <= k <= |req.extras|
      invariant seen.Valid() && Within(universe, seen.first) && old(seen.keys) + {KeyOf(req)} <= seen.keys
      invariant Visit(w, universe, req, extra, old(seen.first)) == VisitExtras(w, universe, req, k, seen.first)
    {
      var installed := ExtraDependenciesInstalled(w, req, k, seen, universe);
      if !installed { return false; }
      k := k + 1;
    }
    ok := true;
  }

  /** `_extra_dependencies_installed` for the `k`-th extra that `req` asks for. */
  method ExtraDependenciesInstalled(w: World, req: Req, k: nat, seen: Seen, ghost universe: set<Key>) returns (ok: bool)
    requires seen.Valid() && Within(universe, seen.first) && Covers(w, universe)
    requires MeetsSpecifier(w, req) && k < |req.extras|
    modifies seen
    ensures seen.Valid() && (ok ==> Within(universe, seen.first) && old(seen.keys) <= seen.keys)
    ensures VisitExtras(w, universe, req, k, old(seen.first)) ==
              if ok then VisitExtras(w, universe, req, k + 1, seen.first) else None
    decreases universe - seen.keys, 3
  {
    var dist, extra := w.dists[req.name], req.extras[k];
    if dist.provided != {} && extra.canonical !in dist.provided { return false; }
    var matched;
    ok, matched := DependenciesInstalled(w, req, k, seen, universe);
    if !ok { return false; }
    ok := matched || dist.provided != {};
  }

  /** Some of the first `n` requirements applies under the extra. */
  predicate AnyApplies(w: World, reqs: seq<Req>, extra: Extra, n: nat) {
    exists j :: 0 <= j < n && j < |reqs| && Applies(w, reqs[j], extra.raw)
  }

  /** The loop over the requirements of the distribution, and whether any applied. */
  method DependenciesInstalled(
      w: World, req: Req, k: nat, seen: Seen, ghost universe: set<Key>) returns (ok: bool, matched: bool)
    requires seen.Valid() && Within(universe, seen.first) && Covers(w, universe)
    requires MeetsSpecifier(w, req) && k < |req.extras|
    modifies seen
    ensures seen.Valid() && (ok ==> Within(universe, seen.first) && old(seen.keys) <= seen.keys)
    ensures VisitDependencies(w, universe, req, k, 0, old(seen.first)) == if ok then Some(seen.first) else None
    ensures ok ==>
      matched == AnyApplies(w, w.dists[req.name].requirements, req.extras[k], |w.dists[req.name].requirements|)
    decreases universe - seen.keys, 2
  {
    var reqs, extra := w.dists[req.name].requirements, req.extras[k];
    ok, matched := true, false;
    var n := 0;
    while n < |reqs|
      invariant 0 <= n <= |reqs|
      invariant seen.Valid() && Within(universe, seen.first) && old(seen.keys) <= seen.keys
      invariant matched == AnyApplies(w, reqs, extra, n)
      invariant VisitDependencies(w, universe, req, k, 0, old(seen.first)) ==
        VisitDependencies(w, universe, req, k, n, seen.first)
    {
      if reqs[n].marker.Some? && !w.evaluate(reqs[n].marker.value, extra.raw) {
        n := n + 1;
        continue;
      }
      matched := true;
      var installed := RequirementInstalled(w, reqs[n], extra.raw, seen, universe);
      if !installed { return false, true; }
      n := n + 1;
    }
  }

  /** `requirement_installed`: a fresh search. */
  method RequirementIsInstalled(w: World, req: Req, extra: string) returns (ok: bool)
    ensures !Applies(w, req, extra) ==> ok
    ensures Satisfied(w, req) ==> ok
    ensures Applies(w, req, extra) && KeysAgree(w, req) ==> (ok <==> Satisfied(w, req))
  {
    var seen := new Seen();
    ghost var universe := {KeyOf(req)} +
      set n, j | n in w.dists && 0 <= j < |w.dists[n].requirements| :: KeyOf(w.dists[n].requirements[j]);
    ok := RequirementInstalled(w, req, extra, seen, universe);
    if Applies(w, req, extra) { FreshSearchDecides(w, universe, req, extra); }
  }

  /** All dependencies that apply under the extra are satisfied. */
  ghost predicate AllSatisfied(w: World, extra: string, deps: seq<Req>) {
    forall i :: 0 <= i < |deps| && Applies(w, deps[i], extra) ==> Satisfied(w, deps[i])
  }

  /** `extra_installed`: no metadata means installed; otherwise one fresh search each. */
  method ExtraIsInstalled(w: World, extra: string, deps: Option<seq<Req>>) returns (ok: bool)
    ensures deps.None? ==> ok
    ensures deps.Some? && AllSatisfied(w, extra, deps.value) ==> ok
    ensures deps.Some? && (forall i :: 0 <= i < |deps.value| ==> KeysAgree(w, deps.value[i])) ==>
              (ok <==> AllSatisfied(w, extra, deps.value))
  {
    if deps.None? { return true; }
    var n := 0;
    while n < |deps.value|
      invariant 0 <= n <= |deps.value|
      invariant forall i :: 0 <= i < n && KeysAgree(w, deps.value[i]) && Applies(w, deps.value[i], extra) ==>
        Satisfied(w, deps.value[i])
    {
      var installed := RequirementIsInstalled(w, deps.value[n], extra);
      if !installed { return false; }
      n := n + 1;
    }
    ok := true;
  }
}
