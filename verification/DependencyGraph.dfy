/** Installed distributions and what it means that a requirement is really satisfied:
    no requirement reachable from it through the extras it asks for fails. The graph may
    have cycles. */
module DependencyGraph {
  import opened Wrappers

  type Name = string

  /** An extra as it is written, for markers, and in canonical form, for comparison. */
  datatype Extra = Extra(raw: string, canonical: Name)

  /** Markers and specifiers are only evaluated, so their identity is enough. */
  datatype Req = Req(name: Name, specifier: Option<nat>, extras: seq<Extra>, marker: Option<nat>)

  datatype Dist = Dist(version: nat, provided: set<Name>, requirements: seq<Req>)

  datatype World = World(dists: map<Name, Dist>, evaluate: (nat, string) -> bool, contains: (nat, nat) -> bool)

  /** What the traversal remembers of a requirement: not its specifier. */
  datatype Key = Key(name: Name, extras: multiset<Name>)

  function CanonicalExtras(extras: seq<Extra>): multiset<Name> {
    if extras == [] then multiset{} else multiset{extras[0].canonical} + CanonicalExtras(extras[1..])
  }

  function KeyOf(req: Req): Key {
    Key(req.name, CanonicalExtras(req.extras))
  }

  predicate Applies(w: World, req: Req, extra: string) {
    req.marker.Some? ==> w.evaluate(req.marker.value, extra)
  }

  predicate MeetsSpecifier(w: World, req: Req) {
    req.name in w.dists && (req.specifier.Some? ==> w.contains(req.specifier.value, w.dists[req.name].version))
  }

  /** The distribution offers the extra: it lists it, or, when it lists none, some
      requirement of it applies under the extra. */
  predicate Offers(w: World, dist: Dist, extra: Extra) {
    if dist.provided != {} then extra.canonical in dist.provided
    else exists j :: 0 <= j < |dist.requirements| && Applies(w, dist.requirements[j], extra.raw)
  }

  predicate Fails(w: World, req: Req) {
    !MeetsSpecifier(w, req) || exists i :: 0 <= i < |req.extras| && !Offers(w, w.dists[req.name], req.extras[i])
  }

  /** `next` is a requirement of `req`'s distribution under one of the extras asked for. */
  predicate Edge(w: World, req: Req, next: Req) {
    req.name in w.dists &&
    exists i, j :: 0 <= i < |req.extras| && 0 <= j < |w.dists[req.name].requirements|
      && Applies(w, w.dists[req.name].requirements[j], req.extras[i].raw)
      && w.dists[req.name].requirements[j] == next
  }

  ghost predicate Path(w: World, path: seq<Req>) {
    path != [] && forall i :: 0 <= i < |path| - 1 ==> Edge(w, path[i], path[i + 1])
  }

  ghost predicate Reaches(w: World, req: Req, to: Req) {
    exists path :: PathBetween(w, path, req, to)
  }

  ghost predicate PathBetween(w: World, path: seq<Req>, req: Req, to: Req) {
    Path(w, path) && path[0] == req && path[|path| - 1] == to
  }

  /** The requirement is satisfied all the way down. */
  ghost predicate Satisfied(w: World, req: Req) {
    forall to :: Reaches(w, req, to) ==> !Fails(w, to)
  }

  lemma {:induction false} ReachesItself(w: World, req: Req)
    ensures Reaches(w, req, req)
  {
    assert PathBetween(w, [req], req, req);
  }

  lemma {:induction false} ReachesBehind(w: World, req: Req, next: Req, to: Req)
    requires Edge(w, req, next) && Reaches(w, next, to)
    ensures Reaches(w, req, to)
  {
    var path :| PathBetween(w, path, next, to);
    var longer := [req] + path;
    forall i | 0 <= i < |longer| - 1 ensures Edge(w, longer[i], longer[i + 1]) {
      if i > 0 { assert Edge(w, path[i - 1], path[i]); }
    }
    assert PathBetween(w, longer, req, to);
  }

  lemma {:induction false} FailureBreaks(w: World, req: Req)
    requires Fails(w, req)
    ensures !Satisfied(w, req)
  {
    ReachesItself(w, req);
  }

  lemma {:induction false} BrokenBehind(w: World, req: Req, next: Req)
    requires Edge(w, req, next) && !Satisfied(w, next)
    ensures !Satisfied(w, req)
  {
    var to :| Reaches(w, next, to) && Fails(w, to);
    ReachesBehind(w, req, next, to);
  }

  // ------------------------------------------------------------- what a set of keys says

  /** The requirement does not fail, and what it leads to has been seen. */
  predicate Settled(w: World, req: Req, seen: set<Key>) {
    && !Fails(w, req)
    && forall i :: 0 <= i < |req.extras| ==> SeenUnder(w, w.dists[req.name].requirements, req.extras[i], seen)
  }

  /** All the requirements that apply under the extra have been seen. */
  predicate SeenUnder(w: World, reqs: seq<Req>, extra: Extra, seen: set<Key>) {
    forall j :: 0 <= j < |reqs| && Applies(w, reqs[j], extra.raw) ==> KeyOf(reqs[j]) in seen
  }

  /** Requirements with the same key agree on what the key forgets: whether the specifier
      is met and which extras, as written, are asked for. */
  ghost predicate KeysAgree(w: World, root: Req) {
    forall a, b :: Reaches(w, root, a) && Reaches(w, root, b) && KeyOf(a) == KeyOf(b) ==>
      (MeetsSpecifier(w, a) <==> MeetsSpecifier(w, b)) && SameExtras(a, b)
  }

  predicate SameExtras(a: Req, b: Req) {
    && (forall i :: 0 <= i < |a.extras| ==> a.extras[i] in b.extras)
    && (forall i :: 0 <= i < |b.extras| ==> b.extras[i] in a.extras)
  }

  /** The requirement that was first seen with its key settles every one that agrees. */
  lemma {:induction false} SettledForAll(w: World, first: Req, req: Req, seen: set<Key>)
    requires Settled(w, first, seen) && first.name == req.name && MeetsSpecifier(w, req) && SameExtras(first, req)
    ensures Settled(w, req, seen)
  {
    forall i | 0 <= i < |req.extras| ensures Offers(w, w.dists[req.name], req.extras[i]) {
      assert req.extras[i] in first.extras;
      var k :| 0 <= k < |first.extras| && first.extras[k] == req.extras[i];
    }
    forall i | 0 <= i < |req.extras| ensures SeenUnder(w, w.dists[req.name].requirements, req.extras[i], seen) {
      assert req.extras[i] in first.extras;
      var k :| 0 <= k < |first.extras| && first.extras[k] == req.extras[i];
    }
  }

  /** Every key that was seen was first seen with a requirement that is reachable and
      settled. */
  ghost predicate Closed(w: World, root: Req, first: map<Key, Req>) {
    forall k :: k in first ==> KeyOf(first[k]) == k && Reaches(w, root, first[k]) && Settled(w, first[k], first.Keys)
  }

  lemma {:induction false} EdgeIsSeen(w: World, req: Req, next: Req, seen: set<Key>)
    requires Settled(w, req, seen) && Edge(w, req, next)
    ensures KeyOf(next) in seen
  {
    var reqs := w.dists[req.name].requirements;
    var i, j :| 0 <= i < |req.extras| && 0 <= j < |reqs| && Applies(w, reqs[j], req.extras[i].raw) && reqs[j] == next;
    assert SeenUnder(w, reqs, req.extras[i], seen);
  }

  lemma {:induction false} PathIsSettled(w: World, root: Req, first: map<Key, Req>, path: seq<Req>)
    requires Closed(w, root, first) && KeysAgree(w, root) && KeyOf(root) in first
    requires Path(w, path) && path[0] == root
    ensures KeyOf(path[|path| - 1]) in first && !Fails(w, path[|path| - 1])
    ensures Settled(w, path[|path| - 1], first.Keys)
    decreases |path|
  {
    var to := path[|path| - 1];
    assert PathBetween(w, path, root, to);
    if |path| > 1 {
      var front := path[..|path| - 1];
      assert Path(w, front);
      PathIsSettled(w, root, first, front);
      assert Edge(w, front[|front| - 1], to);
      EdgeIsSeen(w, front[|front| - 1], to, first.Keys);
    }
    var seen := first[KeyOf(to)];
    assert Reaches(w, root, to) && Reaches(w, root, seen) && KeyOf(seen) == KeyOf(to);
    SettledForAll(w, seen, to, first.Keys);
  }

  /** A closed set of keys with the root in it means that the root is satisfied. */
  lemma {:induction false} ClosedMeansSatisfied(w: World, root: Req, first: map<Key, Req>)
    requires Closed(w, root, first) && KeysAgree(w, root) && KeyOf(root) in first
    ensures Satisfied(w, root)
  {
    forall to | Reaches(w, root, to) ensures !Fails(w, to) {
      var path :| PathBetween(w, path, root, to);
      PathIsSettled(w, root, first, path);
    }
  }
}
