/**
 The two halves of routing put together: the search of Routing over the walk of RouterForest.
 */
module RoutedTree {
  import F = RouterForest
  import opened Routing

  function Meaning(ids: seq<F.Middleware>, code: F.Middleware -> Middleware): (r: seq<Middleware>)
    ensures |r| == |ids| && forall i | 0 <= i < |ids| :: r[i] == code(ids[i])
  {
    if ids == [] then [] else [code(ids[0])] + Meaning(ids[1..], code)
  }

  /** The walk as the dispatcher uses it. */
  function Visits<R(==)>(
    w: F.Walked<R>, observers: map<R, map<string, Observer>>, code: F.Middleware -> Middleware): (r: seq<Visit>)
    requires forall e | e in w :: e.0 in observers
    ensures |r| == |w|
    ensures forall i | 0 <= i < |w| :: w[i].0 in observers && r[i] == Visit(observers[w[i].0], Meaning(w[i].1, code))
  {
    seq(|w|, i requires 0 <= i < |w| => assert w[i] in w; Visit(observers[w[i].0], Meaning(w[i].1, code)))
  }

  /** The walk of the tree of root, from no inherited middleware. */
  function TreeWalk<R(==)>(
    f: F.Forest<R>, ghost rank: map<R, nat>, own: map<R, seq<F.Middleware>>, root: R): (w: F.Walked<R>)
    requires F.Linked(f) && F.Ranked(f, rank) && root in f && own.Keys == f.Keys
    ensures forall e | e in w :: e.0 in f
  {
    F.WalkVisitsTheTreeOnce(f, rank, own, root);
    F.Walk(f, rank, own, root, [])
  }

  /** An observer's handlers on one router. */
  function HandlersOn<R(==)>(observers: map<R, map<string, Observer>>, x: R, name: string): seq<Handler>
    requires x in observers
  {
    if name in observers[x] then observers[x][name].handlers else []
  }

  /** c is the h-th handler of router x for the observer name. */
  predicate Points<R(==)>(w: F.Walked<R>, c: Candidate, x: R, name: string, h: nat) {
    c.router < |w| && w[c.router].0 == x && c.name == name && c.handler == h
  }

  lemma OnlyOne<R>(w: F.Walked<R>, c: Candidate, d: Candidate, x: R, name: string, h: nat)
    requires F.Distinct(w) && Points(w, c, x, name, h) && Points(w, d, x, name, h)
    ensures c == d
  {
  }

  lemma OfferedIffRegistered<R>(
    w: F.Walked<R>, observers: map<R, map<string, Observer>>, code: F.Middleware -> Middleware, names: seq<string>,
    x: R, name: string, h: nat)
    requires forall e | e in w :: e.0 in observers
    requires x in observers && name in names
    ensures
      (exists c | c in Candidates(Visits(w, observers, code), names) :: Points(w, c, x, name, h)) <==>
        F.Meets(w, x) && h < |HandlersOn(observers, x, name)|
  {
    var walk := Visits(w, observers, code);
    CandidatesInOrder(walk, names);
    if F.Meets(w, x) && h < |HandlersOn(observers, x, name)| {
      var i :| 0 <= i < |w| && w[i].0 == x;
      var c := Candidate(name, i, h);
      assert IsCandidate(walk, c) && Points(w, c, x, name, h);
    }
    if exists c | c in Candidates(walk, names) :: Points(w, c, x, name, h) {
      var c :| c in Candidates(walk, names) && Points(w, c, x, name, h);
      assert IsCandidate(walk, c);
    }
  }

  /** An event is offered to a handler exactly when the handler is registered, for one of the
      event's observers, on a router of the tree; and it is offered to each only once. */
  lemma EveryHandlerIsOfferedOnce<R>(
    f: F.Forest<R>, rank: map<R, nat>, own: map<R, seq<F.Middleware>>, root: R,
    observers: map<R, map<string, Observer>>, code: F.Middleware -> Middleware, e: Event, name: string, x: R, h: nat)
    requires F.Linked(f) && F.Ranked(f, rank) && root in f && own.Keys == f.Keys && observers.Keys == f.Keys
    requires x in f && name in ObserverNames(e)
    ensures
      var w := TreeWalk(f, rank, own, root);
      var cs := Candidates(Visits(w, observers, code), ObserverNames(e));
      && ((exists c | c in cs :: Points(w, c, x, name, h)) <==>
            F.Contains(f, rank, root, x) && h < |HandlersOn(observers, x, name)|)
      && (forall i, j | 0 <= i < j < |cs| && Points(w, cs[i], x, name, h) :: !Points(w, cs[j], x, name, h))
  {
    F.WalkVisitsTheTreeOnce(f, rank, own, root);
    var w := TreeWalk(f, rank, own, root);
    var cs := Candidates(Visits(w, observers, code), ObserverNames(e));
    OfferedIffRegistered(w, observers, code, ObserverNames(e), x, name, h);
    assert F.Meets(w, x) <==> F.Contains(f, rank, root, x);
    EachCandidateOnce(Visits(w, observers, code), e);
    forall i, j | 0 <= i < j < |cs| && Points(w, cs[i], x, name, h) ensures !Points(w, cs[j], x, name, h) {
      if Points(w, cs[j], x, name, h) { OnlyOne(w, cs[i], cs[j], x, name, h); }
    }
  }

  /** A handler runs inside its own router's middleware, inside its parent's, up to the root's. */
  lemma MiddlewareNestsAlongThePath<R>(
    f: F.Forest<R>, rank: map<R, nat>, own: map<R, seq<F.Middleware>>, root: R, x: R,
    code: F.Middleware -> Middleware, handler: Next)
    requires F.Linked(f) && F.Ranked(f, rank) && root in f && own.Keys == f.Keys && x in f
    requires F.Contains(f, rank, root, x) && x != root
    ensures f[x].parent.Some? && f[x].parent.value in f && F.Contains(f, rank, root, f[x].parent.value)
    ensures
      Compose(Meaning(F.PathMiddleware(f, rank, own, root, x), code), handler) ==
      Compose(Meaning(F.PathMiddleware(f, rank, own, root, f[x].parent.value), code),
        Compose(Meaning(own[x], code), handler))
  {
    F.ContainsParent(f, rank, root, x);
    var above := F.PathMiddleware(f, rank, own, root, f[x].parent.value);
    assert Meaning(above + own[x], code) == Meaning(above, code) + Meaning(own[x], code);
    ComposeConcat(Meaning(above, code), Meaning(own[x], code), handler);
  }
}
