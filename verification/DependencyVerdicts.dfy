/** What satisfaction and the verdicts of the search mean, in terms of the installed
    distributions alone. */
module DependencyVerdicts {
  import opened DependencyExactness
  import opened DependencyGraph
  import opened DependencySearch
  import opened Wrappers

  predicate MarkerHolds(w: World, req: Req, extra: Extra) {
    req.marker.None? || w.evaluate(req.marker.value, extra.raw)
  }

  /** The requirement itself: its distribution is installed, in a version that its specifier
      contains, and gives every extra that is asked for. One that lists extras gives those; one
      that lists none gives an extra if some requirement of it depends on it. */
  predicate Provided(w: World, req: Req) {
    && req.name in w.dists
    && (req.specifier.Some? ==> w.contains(req.specifier.value, w.dists[req.name].version))
    && forall i :: 0 <= i < |req.extras| ==> Gives(w, w.dists[req.name], req.extras[i])
  }

  predicate Gives(w: World, dist: Dist, extra: Extra) {
    if dist.provided == {} then
      exists j :: 0 <= j < |dist.requirements| && MarkerHolds(w, dist.requirements[j], extra)
    else extra.canonical in dist.provided
  }

  lemma {:induction false} GivesIsOffers(w: World, dist: Dist, extra: Extra)
    ensures Gives(w, dist, extra) <==> Offers(w, dist, extra)
  {
    if Gives(w, dist, extra) && dist.provided == {} {
      var j :| 0 <= j < |dist.requirements| && MarkerHolds(w, dist.requirements[j], extra);
      assert Applies(w, dist.requirements[j], extra.raw);
    }
    if Offers(w, dist, extra) && dist.provided == {} {
      var j :| 0 <= j < |dist.requirements| && Applies(w, dist.requirements[j], extra.raw);
      assert MarkerHolds(w, dist.requirements[j], extra);
    }
  }

  lemma {:induction false} ProvidedIsNoFailure(w: World, req: Req)
    ensures Provided(w, req) <==> !Fails(w, req)
  {
    if MeetsSpecifier(w, req) {
      forall i | 0 <= i < |req.extras|
        ensures Gives(w, w.dists[req.name], req.extras[i]) <==> Offers(w, w.dists[req.name], req.extras[i]) {
        GivesIsOffers(w, w.dists[req.name], req.extras[i]);
      }
    }
  }

  /** What the requirement depends on: what its distribution needs under an extra that is asked
      for. */
  predicate DependsOn(w: World, req: Req, next: Req) {
    req.name in w.dists && next in w.dists[req.name].requirements
    && exists i :: 0 <= i < |req.extras| && MarkerHolds(w, next, req.extras[i])
  }

  lemma {:induction false} DependsOnIsEdge(w: World, req: Req, next: Req)
    ensures DependsOn(w, req, next) <==> Edge(w, req, next)
  {
    if DependsOn(w, req, next) {
      var i :| 0 <= i < |req.extras| && MarkerHolds(w, next, req.extras[i]);
      var j :| 0 <= j < |w.dists[req.name].requirements| && w.dists[req.name].requirements[j] == next;
      assert Applies(w, w.dists[req.name].requirements[j], req.extras[i].raw);
    }
    if Edge(w, req, next) {
      var i, j :| 0 <= i < |req.extras| && 0 <= j < |w.dists[req.name].requirements|
        && Applies(w, w.dists[req.name].requirements[j], req.extras[i].raw)
        && w.dists[req.name].requirements[j] == next;
      assert MarkerHolds(w, next, req.extras[i]);
    }
  }

  /** A requirement is satisfied all the way down exactly if it is provided, and so is
      everything it depends on, all the way down. */
  lemma {:induction false} SatisfiedUnfolds(w: World, req: Req)
    ensures Satisfied(w, req) <==> Provided(w, req) && forall next :: DependsOn(w, req, next) ==> Satisfied(w, next)
  {
    ProvidedIsNoFailure(w, req);
    if Satisfied(w, req) {
      ReachesItself(w, req);
      forall next | DependsOn(w, req, next) ensures Satisfied(w, next) {
        DependsOnIsEdge(w, req, next);
        forall to | Reaches(w, next, to) ensures !Fails(w, to) { ReachesBehind(w, req, next, to); }
      }
    }
    if Provided(w, req) && forall next :: DependsOn(w, req, next) ==> Satisfied(w, next) {
      forall to | Reaches(w, req, to) ensures !Fails(w, to) { ReachedIsFine(w, req, to); }
    }
  }

  lemma {:induction false} ReachedIsFine(w: World, req: Req, to: Req)
    requires !Fails(w, req) && Reaches(w, req, to)
    requires forall next :: DependsOn(w, req, next) ==> Satisfied(w, next)
    ensures !Fails(w, to)
  {
    var path :| PathBetween(w, path, req, to);
    if |path| > 1 {
      var next, rest := path[1], path[1..];
      assert Edge(w, path[0], path[1]);
      DependsOnIsEdge(w, req, next);
      forall i | 0 <= i < |rest| - 1 ensures Edge(w, rest[i], rest[i + 1]) {
        assert Edge(w, path[i + 1], path[i + 2]);
      }
      assert PathBetween(w, rest, next, to);
    }
  }

  /** The verdict at the root: a requirement that does not apply is accepted unseen, and one
      that applies is refused if it is not provided. */
  lemma {:induction false} VerdictAtTheRoot(w: World, universe: set<Key>, req: Req, extra: Extra)
    requires Covers(w, universe) && KeyOf(req) in universe
    ensures !MarkerHolds(w, req, extra) ==> Visit(w, universe, req, extra.raw, map[]) == Some(map[])
    ensures MarkerHolds(w, req, extra) && !Provided(w, req) ==> Visit(w, universe, req, extra.raw, map[]).None?
    ensures MarkerHolds(w, req, extra) && Provided(w, req) && req.extras == [] ==>
      Visit(w, universe, req, extra.raw, map[]) == Some(map[KeyOf(req) := req])
  {
    ProvidedIsNoFailure(w, req);
    FreshSearchIsClosed(w, universe, req, extra.raw);
    if MarkerHolds(w, req, extra) && Visit(w, universe, req, extra.raw, map[]).Some? {
      RootIsFirst(w, universe, req, extra.raw);
    }
  }
}
