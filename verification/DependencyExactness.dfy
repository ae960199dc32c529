/** When acceptance is right, exactly. Markers compare extras in canonical form, so a key
    settles everything about a requirement but its specifier; what the search accepts is
    satisfied if and only if the requirements it passed over meet theirs, which is to say
    that reachable requirements with the same key agree on theirs. */
module DependencyExactness {
  import opened DependencyGraph
  import opened DependencySearch
  import opened Wrappers

  predicate ExtrasAreCanonical(canon: string -> Name, req: Req) {
    forall i :: 0 <= i < |req.extras| ==> req.extras[i].canonical == canon(req.extras[i].raw)
  }

  /** Canonical forms are those of `canon`, and marker evaluation sees nothing else. */
  ghost predicate Canonical(w: World, canon: string -> Name, root: Req) {
    && (forall marker: nat, x: string, y: string ::
          canon(x) == canon(y) ==> w.evaluate(marker, x) == w.evaluate(marker, y))
    && (forall to :: Reaches(w, root, to) ==> ExtrasAreCanonical(canon, to))
  }

  lemma {:induction false} ExtraInKey(extras: seq<Extra>, i: nat)
    requires i < |extras|
    ensures extras[i].canonical in CanonicalExtras(extras)
  {
    if i > 0 { ExtraInKey(extras[1..], i - 1); }
  }

  lemma {:induction false} ExtraFromKey(extras: seq<Extra>, name: Name) returns (i: nat)
    requires name in CanonicalExtras(extras)
    ensures i < |extras| && extras[i].canonical == name
  {
    if extras[0].canonical == name {
      i := 0;
    } else {
      var k := ExtraFromKey(extras[1..], name);
      i := k + 1;
    }
  }

  /** Under the same key, every extra has a counterpart that markers cannot tell from it. */
  lemma {:induction false} Counterpart(
      w: World, canon: string -> Name, root: Req, a: Req, b: Req, i: nat) returns (k: nat)
    requires Canonical(w, canon, root) && Reaches(w, root, a) && Reaches(w, root, b)
    requires KeyOf(a) == KeyOf(b) && i < |a.extras|
    ensures k < |b.extras| && b.extras[k].canonical == a.extras[i].canonical
    ensures forall r: Req :: Applies(w, r, b.extras[k].raw) <==> Applies(w, r, a.extras[i].raw)
  {
    ExtraInKey(a.extras, i);
    k := ExtraFromKey(b.extras, a.extras[i].canonical);
    assert ExtrasAreCanonical(canon, a) && ExtrasAreCanonical(canon, b);
    assert canon(b.extras[k].raw) == canon(a.extras[i].raw);
  }

  lemma {:induction false} SameKeySameSettled(
      w: World, canon: string -> Name, root: Req, first: Req, req: Req, seen: set<Key>)
    requires Canonical(w, canon, root) && Reaches(w, root, first) && Reaches(w, root, req)
    requires KeyOf(first) == KeyOf(req) && Settled(w, first, seen) && MeetsSpecifier(w, req)
    ensures Settled(w, req, seen)
  {
    forall i | 0 <= i < |req.extras|
      ensures Offers(w, w.dists[req.name], req.extras[i])
      ensures SeenUnder(w, w.dists[req.name].requirements, req.extras[i], seen)
    {
      var k := Counterpart(w, canon, root, req, first, i);
      assert Offers(w, w.dists[first.name], first.extras[k]);
      assert SeenUnder(w, w.dists[first.name].requirements, first.extras[k], seen);
    }
  }

  lemma {:induction false} SameKeySameEdges(w: World, canon: string -> Name, root: Req, first: Req, req: Req, next: Req)
    requires Canonical(w, canon, root) && Reaches(w, root, first) && Reaches(w, root, req)
    requires KeyOf(first) == KeyOf(req) && Edge(w, req, next)
    ensures Edge(w, first, next)
  {
    var reqs := w.dists[req.name].requirements;
    var i, j :| 0 <= i < |req.extras| && 0 <= j < |reqs| && Applies(w, reqs[j], req.extras[i].raw) && reqs[j] == next;
    var k := Counterpart(w, canon, root, req, first, i);
    assert Applies(w, reqs[j], first.extras[k].raw);
  }

  /** The requirements that the search came to, visited or passed over, meet their
      specifiers. */
  ghost predicate PassedOverMeet(w: World, first: SeenMap) {
    forall k, next :: k in first && Edge(w, first[k], next) ==> MeetsSpecifier(w, next)
  }

  lemma {:induction false} ReachesOn(w: World, root: Req, req: Req, next: Req)
    requires Reaches(w, root, req) && Edge(w, req, next)
    ensures Reaches(w, root, next)
  {
    var path :| PathBetween(w, path, root, req);
    var longer := path + [next];
    forall i | 0 <= i < |longer| - 1 ensures Edge(w, longer[i], longer[i + 1]) {
      if i < |path| - 1 { assert Edge(w, path[i], path[i + 1]); }
    }
    assert PathBetween(w, longer, root, next);
  }

  lemma {:induction false} PathIsMet(w: World, canon: string -> Name, root: Req, first: SeenMap, path: seq<Req>)
    requires Canonical(w, canon, root) && Closed(w, root, first) && KeyOf(root) in first && first[KeyOf(root)] == root
    requires PassedOverMeet(w, first) && Path(w, path) && path[0] == root
    ensures var to := path[|path| - 1]; Reaches(w, root, to) && KeyOf(to) in first && Settled(w, to, first.Keys)
    decreases |path|
  {
    var to := path[|path| - 1];
    assert PathBetween(w, path, root, to);
    if |path| > 1 {
      var front := path[..|path| - 1];
      assert Path(w, front);
      PathIsMet(w, canon, root, first, front);
      var from := front[|front| - 1];
      assert Edge(w, from, to);
      EdgeIsSeen(w, from, to, first.Keys);
      SameKeySameEdges(w, canon, root, first[KeyOf(from)], from, to);
      SameKeySameSettled(w, canon, root, first[KeyOf(to)], to, first.Keys);
    }
  }

  lemma {:induction false} ClosedIsSatisfiedIff(w: World, canon: string -> Name, root: Req, first: SeenMap)
    requires Canonical(w, canon, root) && Closed(w, root, first) && KeyOf(root) in first && first[KeyOf(root)] == root
    ensures Satisfied(w, root) <==> PassedOverMeet(w, first)
  {
    if PassedOverMeet(w, first) {
      forall to | Reaches(w, root, to) ensures !Fails(w, to) {
        var path :| PathBetween(w, path, root, to);
        PathIsMet(w, canon, root, first, path);
      }
    }
    if Satisfied(w, root) {
      forall k, next | k in first && Edge(w, first[k], next) ensures MeetsSpecifier(w, next) {
        ReachesOn(w, root, first[k], next);
      }
    }
  }

  /** What can be checked on the graph before the search: of reachable requirements with the
      same key all meet their specifiers or none does. */
  ghost predicate SpecifiersAgree(w: World, root: Req) {
    forall a, b :: Reaches(w, root, a) && Reaches(w, root, b) && KeyOf(a) == KeyOf(b) ==>
      (MeetsSpecifier(w, a) <==> MeetsSpecifier(w, b))
  }

  lemma {:induction false} AgreeingAreMet(w: World, root: Req, first: SeenMap)
    requires Closed(w, root, first) && SpecifiersAgree(w, root)
    ensures PassedOverMeet(w, first)
  {
    forall k, next | k in first && Edge(w, first[k], next) ensures MeetsSpecifier(w, next) {
      EdgeIsSeen(w, first[k], next, first.Keys);
      ReachesOn(w, root, first[k], next);
      assert !Fails(w, first[KeyOf(next)]);
    }
  }

  /** A requirement is satisfied all the way down if and only if the search accepts it and
      the requirements it passed over on the way meet their specifiers; equally, if and only
      if it accepts it and specifiers agree. */
  lemma {:induction false} SatisfiedExactly(
      w: World, canon: string -> Name, universe: set<Key>, req: Req, extra: string)
    requires Covers(w, universe) && KeyOf(req) in universe && Applies(w, req, extra) && Canonical(w, canon, req)
    ensures
      var r := Visit(w, universe, req, extra, map[]);
      && (Satisfied(w, req) <==> r.Some? && PassedOverMeet(w, r.value))
      && (Satisfied(w, req) <==> r.Some? && SpecifiersAgree(w, req))
  {
    var r := Visit(w, universe, req, extra, map[]);
    VisitSettles(w, universe, req, extra, map[]);
    FreshSearchIsClosed(w, universe, req, extra);
    if r.Some? {
      RootIsFirst(w, universe, req, extra);
      ClosedIsSatisfiedIff(w, canon, req, r.value);
      if SpecifiersAgree(w, req) { AgreeingAreMet(w, req, r.value); }
    }
  }

  lemma {:induction false} RootIsFirst(w: World, universe: set<Key>, req: Req, extra: string)
    requires Covers(w, universe) && KeyOf(req) in universe && Applies(w, req, extra)
    requires Visit(w, universe, req, extra, map[]).Some?
    ensures
      var first := Visit(w, universe, req, extra, map[]).value;
      KeyOf(req) in first && first[KeyOf(req)] == req
  {
    var seen: SeenMap := map[];
    var noted := seen[KeyOf(req) := req];
    assert noted.Keys == {KeyOf(req)};
    ExtrasSettle(w, universe, req, 0, noted);
    assert noted[KeyOf(req)] == req;
  }
}
