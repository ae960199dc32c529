/** The search as a function of the keys seen so far, each with the requirement it was
    first seen with: what is seen afterwards, or nothing when the search refuses. Then
    what a search that accepts has established, and what it forgets. */
module DependencySearch {
  import opened DependencyGraph
  import opened Wrappers

  type SeenMap = map<Key, Req>

  /** The keys that the search can meet. */
  ghost predicate Covers(w: World, universe: set<Key>) {
    forall n, j :: n in w.dists && 0 <= j < |w.dists[n].requirements| ==> KeyOf(w.dists[n].requirements[j]) in universe
  }

  ghost predicate Within(universe: set<Key>, seen: SeenMap) {
    seen.Keys <= universe
  }

  ghost function Visit(w: World, universe: set<Key>, req: Req, extra: string, seen: SeenMap): (r: Option<SeenMap>)
    requires Covers(w, universe) && KeyOf(req) in universe && Within(universe, seen)
    ensures r.Some? ==> seen.Keys <= r.value.Keys && Within(universe, r.value)
    decreases universe - seen.Keys, 1, 0
  {
    if !Applies(w, req, extra) || KeyOf(req) in seen then Some(seen)
    else if !MeetsSpecifier(w, req) then None
    else
      assert seen[KeyOf(req) := req].Keys == seen.Keys + {KeyOf(req)};
      VisitExtras(w, universe, req, 0, seen[KeyOf(req) := req])
  }

  ghost function VisitExtras(w: World, universe: set<Key>, req: Req, k: nat, seen: SeenMap): (r: Option<SeenMap>)
    requires Covers(w, universe) && Within(universe, seen) && MeetsSpecifier(w, req) && k <= |req.extras|
    ensures r.Some? ==> seen.Keys <= r.value.Keys && Within(universe, r.value)
    decreases universe - seen.Keys, 3, |req.extras| - k
  {
    if k == |req.extras| then Some(seen)
    else if w.dists[req.name].provided != {} && !Offers(w, w.dists[req.name], req.extras[k]) then None
    else
      var r := VisitDependencies(w, universe, req, k, 0, seen);
      if r.Some? && Offers(w, w.dists[req.name], req.extras[k])
        then VisitExtras(w, universe, req, k + 1, r.value) else None
  }

  ghost function VisitDependencies(
      w: World, universe: set<Key>, req: Req, k: nat, n: nat, seen: SeenMap): (r: Option<SeenMap>)
    requires Covers(w, universe) && Within(universe, seen) && MeetsSpecifier(w, req)
    requires k < |req.extras| && n <= |w.dists[req.name].requirements|
    ensures r.Some? ==> seen.Keys <= r.value.Keys && Within(universe, r.value)
    decreases universe - seen.Keys, 2, |w.dists[req.name].requirements| - n
  {
    if n == |w.dists[req.name].requirements| then Some(seen)
    else if !Applies(w, w.dists[req.name].requirements[n], req.extras[k].raw) then
      VisitDependencies(w, universe, req, k, n + 1, seen)
    else
      var r := Visit(w, universe, w.dists[req.name].requirements[n], req.extras[k].raw, seen);
      if r.Some? then VisitDependencies(w, universe, req, k, n + 1, r.value) else None
  }

  // --------------------------------------------------- what the search has established

  /** Nothing is forgotten, and every key seen first is settled by the requirement it was
      seen with, which `root` leads to. */
  ghost predicate Extends(w: World, root: Req, was: SeenMap, now: SeenMap) {
    && (forall k :: k in was ==> k in now && now[k] == was[k])
    && (forall k :: k in now && k !in was ==>
          KeyOf(now[k]) == k && Settled(w, now[k], now.Keys) && Reaches(w, root, now[k]))
  }

  lemma {:induction false} SettledGrows(w: World, req: Req, seen: set<Key>, more: set<Key>)
    requires Settled(w, req, seen) && seen <= more
    ensures Settled(w, req, more)
  {
    forall i | 0 <= i < |req.extras| ensures SeenUnder(w, w.dists[req.name].requirements, req.extras[i], more) {
      assert SeenUnder(w, w.dists[req.name].requirements, req.extras[i], seen);
    }
  }

  lemma {:induction false} ExtendsOnward(w: World, root: Req, was: SeenMap, mid: SeenMap, now: SeenMap)
    requires Extends(w, root, was, mid) && Extends(w, root, mid, now)
    ensures Extends(w, root, was, now)
  {
    forall k | k in now && k !in was ensures Settled(w, now[k], now.Keys) {
      if k in mid { SettledGrows(w, now[k], mid.Keys, now.Keys); }
    }
  }

  lemma {:induction false} ExtendsBehind(w: World, root: Req, next: Req, was: SeenMap, now: SeenMap)
    requires Extends(w, next, was, now) && Edge(w, root, next)
    ensures Extends(w, root, was, now)
  {
    forall k | k in now && k !in was ensures Reaches(w, root, now[k]) {
      ReachesBehind(w, root, next, now[k]);
    }
  }

  /** The requirement was noted first and is settled in the end. */
  lemma {:induction false} ExtendsFromRoot(w: World, req: Req, was: SeenMap, now: SeenMap)
    requires KeyOf(req) !in was && Extends(w, req, was[KeyOf(req) := req], now) && Settled(w, req, now.Keys)
    ensures Extends(w, req, was, now)
  {
    ReachesItself(w, req);
    assert now[KeyOf(req)] == req;
    forall k | k in was ensures k in now && now[k] == was[k] {
      assert was[KeyOf(req) := req][k] == was[k];
    }
  }

  /** The requirements from the `n`-th on that apply have been seen. */
  predicate SeenFrom(w: World, reqs: seq<Req>, extra: Extra, seen: set<Key>, n: nat) {
    forall j :: n <= j < |reqs| && Applies(w, reqs[j], extra.raw) ==> KeyOf(reqs[j]) in seen
  }

  /** Acceptance: the requirement has been seen, and all that the search saw is settled.
      Refusal: something reachable fails. */
  lemma {:induction false} VisitSettles(w: World, universe: set<Key>, req: Req, extra: string, seen: SeenMap)
    requires Covers(w, universe) && KeyOf(req) in universe && Within(universe, seen)
    ensures
      var r := Visit(w, universe, req, extra, seen);
      if r.Some? then Extends(w, req, seen, r.value) && (Applies(w, req, extra) ==> KeyOf(req) in r.value)
      else Applies(w, req, extra) && !Satisfied(w, req)
    decreases universe - seen.Keys, 1, 0
  {
    if Applies(w, req, extra) && KeyOf(req) !in seen {
      if MeetsSpecifier(w, req) {
        assert seen[KeyOf(req) := req].Keys == seen.Keys + {KeyOf(req)};
        ExtrasSettle(w, universe, req, 0, seen[KeyOf(req) := req]);
        var r := VisitExtras(w, universe, req, 0, seen[KeyOf(req) := req]);
        if r.Some? { ExtendsFromRoot(w, req, seen, r.value); }
      } else {
        FailureBreaks(w, req);
      }
    }
  }

  lemma {:induction false} ExtrasSettle(w: World, universe: set<Key>, req: Req, k: nat, seen: SeenMap)
    requires Covers(w, universe) && Within(universe, seen) && MeetsSpecifier(w, req) && k <= |req.extras|
    requires forall i :: 0 <= i < k ==> OfferedAndSeen(w, req, i, seen.Keys)
    ensures
      var r := VisitExtras(w, universe, req, k, seen);
      if r.Some? then Extends(w, req, seen, r.value) && Settled(w, req, r.value.Keys) else !Satisfied(w, req)
    decreases universe - seen.Keys, 3, |req.extras| - k
  {
    if k == |req.extras| {
      AllOfferedAndSeen(w, req, seen.Keys);
    } else {
      DependenciesSettle(w, universe, req, k, 0, seen);
      var r := VisitDependencies(w, universe, req, k, 0, seen);
      if !Offers(w, w.dists[req.name], req.extras[k]) {
        FailureBreaks(w, req);
      } else if r.Some? {
        OfferedAndSeenGrow(w, req, k, seen.Keys, r.value.Keys);
        ExtrasSettle(w, universe, req, k + 1, r.value);
        var last := VisitExtras(w, universe, req, k + 1, r.value);
        if last.Some? { ExtendsOnward(w, req, seen, r.value, last.value); }
      }
    }
  }

  predicate OfferedAndSeen(w: World, req: Req, i: nat, seen: set<Key>)
    requires MeetsSpecifier(w, req) && i < |req.extras|
  {
    Offers(w, w.dists[req.name], req.extras[i]) && SeenUnder(w, w.dists[req.name].requirements, req.extras[i], seen)
  }

  lemma {:induction false} AllOfferedAndSeen(w: World, req: Req, seen: set<Key>)
    requires MeetsSpecifier(w, req) && forall i :: 0 <= i < |req.extras| ==> OfferedAndSeen(w, req, i, seen)
    ensures Settled(w, req, seen)
  {
    forall i | 0 <= i < |req.extras|
      ensures Offers(w, w.dists[req.name], req.extras[i])
      ensures SeenUnder(w, w.dists[req.name].requirements, req.extras[i], seen)
    {
      assert OfferedAndSeen(w, req, i, seen);
    }
  }

  lemma {:induction false} OfferedAndSeenGrow(w: World, req: Req, k: nat, seen: set<Key>, more: set<Key>)
    requires MeetsSpecifier(w, req) && k < |req.extras| && seen <= more
    requires forall i :: 0 <= i < k ==> OfferedAndSeen(w, req, i, seen)
    requires Offers(w, w.dists[req.name], req.extras[k])
    requires SeenFrom(w, w.dists[req.name].requirements, req.extras[k], more, 0)
    ensures forall i :: 0 <= i < k + 1 ==> OfferedAndSeen(w, req, i, more)
  {
    forall i | 0 <= i < k + 1 ensures OfferedAndSeen(w, req, i, more) {
      if i < k { assert OfferedAndSeen(w, req, i, seen); }
    }
  }

  lemma {:induction false} DependenciesSettle(w: World, universe: set<Key>, req: Req, k: nat, n: nat, seen: SeenMap)
    requires Covers(w, universe) && Within(universe, seen) && MeetsSpecifier(w, req)
    requires k < |req.extras| && n <= |w.dists[req.name].requirements|
    ensures
      var r := VisitDependencies(w, universe, req, k, n, seen);
      if r.Some? then
        && Extends(w, req, seen, r.value)
        && SeenFrom(w, w.dists[req.name].requirements, req.extras[k], r.value.Keys, n)
      else !Satisfied(w, req)
    decreases universe - seen.Keys, 2, |w.dists[req.name].requirements| - n
  {
    if n < |w.dists[req.name].requirements| {
      var next := w.dists[req.name].requirements[n];
      if Applies(w, next, req.extras[k].raw) {
        VisitSettles(w, universe, next, req.extras[k].raw, seen);
        var r := Visit(w, universe, next, req.extras[k].raw, seen);
        if r.Some? {
          DependenciesSettle(w, universe, req, k, n + 1, r.value);
          var last := VisitDependencies(w, universe, req, k, n + 1, r.value);
          DependencySettles(w, universe, req, k, n, seen, r.value, last);
          assert VisitDependencies(w, universe, req, k, n, seen) == last;
        } else {
          assert Edge(w, req, next);
          BrokenBehind(w, req, next);
        }
      } else {
        DependenciesSettle(w, universe, req, k, n + 1, seen);
        assert VisitDependencies(w, universe, req, k, n, seen) == VisitDependencies(w, universe, req, k, n + 1, seen);
      }
    }
  }

  lemma {:induction false} DependencySettles(
      w: World, universe: set<Key>, req: Req, k: nat, n: nat, was: SeenMap, mid: SeenMap, last: Option<SeenMap>)
    requires req.name in w.dists && k < |req.extras| && n < |w.dists[req.name].requirements|
    requires Applies(w, w.dists[req.name].requirements[n], req.extras[k].raw)
    requires Extends(w, w.dists[req.name].requirements[n], was, mid) && KeyOf(w.dists[req.name].requirements[n]) in mid
    requires last.Some? ==>
      && Extends(w, req, mid, last.value)
      && SeenFrom(w, w.dists[req.name].requirements, req.extras[k], last.value.Keys, n + 1)
    ensures last.Some? ==>
      && Extends(w, req, was, last.value)
      && SeenFrom(w, w.dists[req.name].requirements, req.extras[k], last.value.Keys, n)
  {
    if last.Some? {
      ExtendsBehind(w, req, w.dists[req.name].requirements[n], was, mid);
      ExtendsOnward(w, req, was, mid, last.value);
    }
  }

  /** A search that starts with nothing seen: what it sees is closed. */
  lemma {:induction false} FreshSearchIsClosed(w: World, universe: set<Key>, req: Req, extra: string)
    requires Covers(w, universe) && KeyOf(req) in universe
    ensures Visit(w, universe, req, extra, map[]).Some? ==> Closed(w, req, Visit(w, universe, req, extra, map[]).value)
  {
    VisitSettles(w, universe, req, extra, map[]);
  }

  /** A refusal always has a reason; acceptance is right whenever requirements with the
      same key agree. */
  lemma {:induction false} FreshSearchDecides(w: World, universe: set<Key>, req: Req, extra: string)
    requires Covers(w, universe) && KeyOf(req) in universe && Applies(w, req, extra)
    ensures Satisfied(w, req) ==> Visit(w, universe, req, extra, map[]).Some?
    ensures KeysAgree(w, req) ==> (Visit(w, universe, req, extra, map[]).Some? <==> Satisfied(w, req))
  {
    VisitSettles(w, universe, req, extra, map[]);
    FreshSearchIsClosed(w, universe, req, extra);
    var r := Visit(w, universe, req, extra, map[]);
    if r.Some? && KeysAgree(w, req) { ClosedMeansSatisfied(w, req, r.value); }
  }

  // ------------------------------------------------------------- what the keys forget

  /** A distribution that needs another one twice under one extra, the second time in a
      version that is not there. */
  function TwiceNeeded(): World {
    World(map["app" := Dist(1, {}, [Req("lib", Some(1), [], None), Req("lib", Some(2), [], None)]),
                  "lib" := Dist(1, {}, [])],
          (marker: nat, extra: string) => true,
          (specifier: nat, version: nat) => specifier == version)
  }

  function App(): Req { Req("app", None, [Extra("x", "x")], None) }

  ghost function TwiceKeys(): set<Key> { {KeyOf(App()), Key("lib", multiset{})} }

  /** The search accepts it: the second requirement has a key that was seen. */
  lemma {:induction false} SecondSpecifierIsNotChecked()
    ensures Covers(TwiceNeeded(), TwiceKeys())
    ensures Visit(TwiceNeeded(), TwiceKeys(), App(), "", map[]).Some?
    ensures !Satisfied(TwiceNeeded(), App())
  {
    TwiceNeededIsNotSatisfied();
    TwiceNeededIsAccepted();
  }

  lemma {:induction false} TwiceNeededIsNotSatisfied()
    ensures !Satisfied(TwiceNeeded(), App())
  {
    var w, app := TwiceNeeded(), App();
    var bad := w.dists["app"].requirements[1];
    assert Applies(w, bad, app.extras[0].raw) && w.dists[app.name].requirements[1] == bad;
    assert Edge(w, app, bad);
    FailureBreaks(w, bad);
    BrokenBehind(w, app, bad);
  }

  lemma {:induction false} TwiceNeededIsAccepted()
    ensures Covers(TwiceNeeded(), TwiceKeys())
    ensures Visit(TwiceNeeded(), TwiceKeys(), App(), "", map[]).Some?
  {
    var w, u, app := TwiceNeeded(), TwiceKeys(), App();
    var good, bad := w.dists["app"].requirements[0], w.dists["app"].requirements[1];
    assert KeyOf(good) == KeyOf(bad) == Key("lib", multiset{});
    assert KeyOf(app) != KeyOf(good);
    var seen: SeenMap := map[][KeyOf(app) := app];
    var both := seen[KeyOf(good) := good];
    assert Visit(w, u, good, "x", seen) == Some(both);
    assert Visit(w, u, bad, "x", both) == Some(both);
    assert VisitDependencies(w, u, app, 0, 1, both) == Some(both);
    assert VisitDependencies(w, u, app, 0, 0, seen) == Some(both);
    assert Applies(w, good, app.extras[0].raw);
    assert Offers(w, w.dists["app"], app.extras[0]);
    assert VisitExtras(w, u, app, 0, seen) == Some(both);
  }
}
