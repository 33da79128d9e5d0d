/**
 The router tree of src/chattice/dispatcher/router.py: include_router keeps a single-parent
 forest, so the recursive _contains and _walk end, and the walk meets every router of the tree
 once, parents before children, with the middleware of its root path.
 */
module RouterForest {
  import opened Options

  /** Forest<R> is the router graph as a value; R names a router. */
  datatype Node<R> = Node(parent: Option<R>, children: seq<R>, dispatcher: bool)

  type Forest<R(==)> = map<R, Node<R>>

  datatype ConfigurationError = IncludesItself | IncludesDispatcher | AlreadyAttached | WouldCycle

  // What must hold of one router or one edge. Kept as predicates of their own so that a proof
  // names the edge it follows.

  ghost predicate Falls<R>(f: Forest<R>, rank: map<R, nat>, p: R, c: R) {
    p in f && p in rank && c in f[p].children ==> c in f && c in rank && rank[c] < rank[p]
  }

  ghost predicate LinksDown<R>(f: Forest<R>, p: R, c: R) {
    p in f && c in f[p].children ==> c in f && f[c].parent == Some(p)
  }

  ghost predicate LinksUp<R>(f: Forest<R>, c: R) {
    c in f && f[c].parent.Some? ==> f[c].parent.value in f && c in f[f[c].parent.value].children
  }

  ghost predicate Tidy<R>(f: Forest<R>, p: R) {
    p in f ==>
      && (forall i, j | 0 <= i < j < |f[p].children| :: f[p].children[i] != f[p].children[j])
      && (f[p].dispatcher ==> f[p].parent == None)
  }

  /** rank certifies that there is no cycle: it falls from parent to child. */
  ghost predicate Ranked<R>(f: Forest<R>, rank: map<R, nat>) {
    && rank.Keys == f.Keys
    && forall p, c {:trigger Falls(f, rank, p, c)} | p in f && c in f[p].children :: Falls(f, rank, p, c)
  }

  /** Parent and child links agree, no child is listed twice, a dispatcher is a root. */
  ghost predicate Linked<R>(f: Forest<R>) {
    && (forall p, c {:trigger LinksDown(f, p, c)} | p in f && c in f[p].children :: LinksDown(f, p, c))
    && (forall c {:trigger LinksUp(f, c)} | c in f :: LinksUp(f, c))
    && (forall p {:trigger Tidy(f, p)} | p in f :: Tidy(f, p))
  }

  ghost predicate Acyclic<R(!new)>(f: Forest<R>) {
    exists rank :: Ranked(f, rank)
  }

  ghost predicate WellFormed<R(!new)>(f: Forest<R>) {
    Linked(f) && Acyclic(f)
  }

  /** _contains: x is in the tree below r. */
  predicate Contains<R(==)>(f: Forest<R>, ghost rank: map<R, nat>, r: R, x: R)
    requires Ranked(f, rank) && r in f
    decreases rank[r]
  {
    r == x || exists c | c in f[r].children :: (assert Falls(f, rank, r, c); Contains(f, rank, c, x))
  }

  /** s and r linked as parent and child. */
  function Attached<R(==)>(f: Forest<R>, s: R, r: R): Forest<R>
    requires s in f && r in f
  {
    var g := f[r := f[r].(parent := Some(s))];
    g[s := g[s].(children := g[s].children + [r])]
  }

  /** include_router on self s with argument r. */
  function Include<R(==)>(f: Forest<R>, ghost rank: map<R, nat>, s: R, r: R): Result<Forest<R>, ConfigurationError>
    requires Ranked(f, rank) && s in f && r in f
  {
    if r == s then Err(IncludesItself)
    else if f[r].dispatcher then Err(IncludesDispatcher)
    else if f[r].parent.Some? then Err(AlreadyAttached)
    else if Contains(f, rank, r, s) then Err(WouldCycle)
    else Ok(Attached(f, s, r))
  }

  // ------------------------------------------------------------------ reachability

  lemma ContainsStep<R>(f: Forest<R>, rank: map<R, nat>, r: R, c: R, x: R)
    requires Ranked(f, rank) && r in f && c in f[r].children && c in f && Contains(f, rank, c, x)
    ensures Contains(f, rank, r, x)
  {
  }

  /** The child the way to x leads through. */
  lemma ContainsThrough<R>(f: Forest<R>, rank: map<R, nat>, r: R, x: R) returns (c: R)
    requires Ranked(f, rank) && r in f && Contains(f, rank, r, x) && x != r
    ensures c in f[r].children && c in f && rank[c] < rank[r] && Contains(f, rank, c, x)
  {
    c :| c in f[r].children && (assert Falls(f, rank, r, c); Contains(f, rank, c, x));
    assert Falls(f, rank, r, c);
  }

  lemma {:induction false} ContainsRanks<R>(f: Forest<R>, rank: map<R, nat>, r: R, x: R)
    requires Ranked(f, rank) && r in f && Contains(f, rank, r, x)
    ensures x in f && rank[x] <= rank[r] && (x != r ==> rank[x] < rank[r])
    decreases rank[r]
  {
    if r != x {
      var c := ContainsThrough(f, rank, r, x);
      ContainsRanks(f, rank, c, x);
    }
  }

  /** Below a child is below the parent. */
  lemma {:induction false} ContainsChild<R>(f: Forest<R>, rank: map<R, nat>, r: R, p: R, c: R)
    requires Ranked(f, rank) && r in f && p in f && c in f[p].children && Contains(f, rank, r, p)
    ensures Contains(f, rank, r, c)
    decreases rank[r]
  {
    assert Falls(f, rank, p, c);
    if r == p {
      ContainsStep(f, rank, r, c, c);
    } else {
      var d := ContainsThrough(f, rank, r, p);
      ContainsChild(f, rank, d, p, c);
      ContainsStep(f, rank, r, d, c);
    }
  }

  /** What is below r, other than r, has its parent below r. */
  lemma {:induction false} ContainsParent<R>(f: Forest<R>, rank: map<R, nat>, r: R, x: R)
    requires Linked(f) && Ranked(f, rank) && r in f && Contains(f, rank, r, x) && x != r
    ensures x in f && f[x].parent.Some? && f[x].parent.value in f && Contains(f, rank, r, f[x].parent.value)
    ensures rank[x] < rank[f[x].parent.value] <= rank[r]
    decreases rank[r]
  {
    var c := ContainsThrough(f, rank, r, x);
    assert LinksDown(f, r, c);
    if c != x {
      ContainsParent(f, rank, c, x);
      ContainsStep(f, rank, r, c, f[x].parent.value);
    }
  }

  // ------------------------------------------------------------------ include_router

  /** Routers outside r's tree rise above it. */
  function Raised<R(==)>(f: Forest<R>, rank: map<R, nat>, r: R): map<R, nat>
    requires Ranked(f, rank) && r in f
  {
    map x | x in rank :: if Contains(f, rank, r, x) then rank[x] else rank[x] + rank[r] + 1
  }

  lemma OldEdgeFalls<R>(f: Forest<R>, rank: map<R, nat>, r: R, p: R, c: R)
    requires Linked(f) && Ranked(f, rank) && r in f && f[r].parent == None && p in f && c in f[p].children
    ensures c in f && Raised(f, rank, r)[c] < Raised(f, rank, r)[p]
  {
    assert Falls(f, rank, p, c) && LinksDown(f, p, c);
    if Contains(f, rank, r, p) {
      ContainsChild(f, rank, r, p, c);
    } else if Contains(f, rank, r, c) {
      ContainsParent(f, rank, r, c);
    }
  }

  lemma IncludeKeepsRanks<R>(f: Forest<R>, rank: map<R, nat>, s: R, r: R)
    requires Linked(f) && Ranked(f, rank) && s in f && r in f && Include(f, rank, s, r).Ok?
    ensures Ranked(Include(f, rank, s, r).value, Raised(f, rank, r))
  {
    var g, raised := Include(f, rank, s, r).value, Raised(f, rank, r);
    assert Contains(f, rank, r, r);
    forall p, c | p in g && c in g[p].children ensures Falls(g, raised, p, c) {
      if p in f && c in f[p].children {
        OldEdgeFalls(f, rank, r, p, c);
      } else {
        assert p == s && c == r;
      }
    }
  }

  lemma IncludeKeepsLinks<R>(f: Forest<R>, rank: map<R, nat>, s: R, r: R)
    requires Linked(f) && Ranked(f, rank) && s in f && r in f && Include(f, rank, s, r).Ok?
    ensures Linked(Include(f, rank, s, r).value)
  {
    var g := Include(f, rank, s, r).value;
    forall p | p in f ensures r !in f[p].children { assert LinksDown(f, p, r); }
    forall p, c | p in g && c in g[p].children ensures LinksDown(g, p, c) { assert LinksDown(f, p, c); }
    forall c | c in g ensures LinksUp(g, c) {
      assert LinksUp(f, c);
      if c == r { assert g[s].children[|f[s].children|] == r; }
    }
    forall p | p in g ensures Tidy(g, p) { assert Tidy(f, p); }
  }

  /** An accepted include keeps the forest. */
  lemma IncludeKeepsForest<R(!new)>(f: Forest<R>, rank: map<R, nat>, s: R, r: R)
    requires Linked(f) && Ranked(f, rank) && s in f && r in f && Include(f, rank, s, r).Ok?
    ensures WellFormed(Include(f, rank, s, r).value)
  {
    IncludeKeepsRanks(f, rank, s, r);
    IncludeKeepsLinks(f, rank, s, r);
  }

  /** The cycle check is needed and enough: of a detached router that is not a dispatcher, an
      include is refused exactly when the link would close a cycle. */
  lemma RefusedExactlyOnCycles<R(!new)>(f: Forest<R>, rank: map<R, nat>, s: R, r: R)
    requires Linked(f) && Ranked(f, rank) && s in f && r in f && !f[r].dispatcher && f[r].parent == None
    ensures Include(f, rank, s, r).Err? <==> !Acyclic(Attached(f, s, r))
  {
    var g := Attached(f, s, r);
    if Include(f, rank, s, r).Ok? {
      IncludeKeepsRanks(f, rank, s, r);
    } else if Acyclic(g) {
      var other :| Ranked(g, other);
      assert g[s].children[|f[s].children|] == r;
      assert Falls(g, other, s, r);
      DescendingRanks(f, rank, g, other, r, s);
    }
  }

  /** An include is accepted exactly for a detached router that is no dispatcher and closes no
      cycle; a refusal names the first of its reasons. */
  lemma IncludeDecides<R(!new)>(f: Forest<R>, rank: map<R, nat>, s: R, r: R)
    requires Linked(f) && Ranked(f, rank) && s in f && r in f
    ensures
      var included := Include(f, rank, s, r);
      && (included.Ok? <==> !f[r].dispatcher && f[r].parent == None && Acyclic(Attached(f, s, r)))
      && (included.Err? ==>
            match included.error
            case IncludesItself => r == s
            case IncludesDispatcher => r != s && f[r].dispatcher
            case AlreadyAttached => r != s && !f[r].dispatcher && f[r].parent.Some?
            case WouldCycle =>
              r != s && !f[r].dispatcher && f[r].parent == None && !Acyclic(Attached(f, s, r)))
  {
    if !f[r].dispatcher && f[r].parent == None { RefusedExactlyOnCycles(f, rank, s, r); }
  }

  /** Any other ranking of a larger graph falls along old paths too. */
  lemma {:induction false} DescendingRanks<R>(
    f: Forest<R>, rank: map<R, nat>, g: Forest<R>, other: map<R, nat>, r: R, x: R)
    requires Ranked(f, rank) && Ranked(g, other) && r in f && Contains(f, rank, r, x)
    requires f.Keys == g.Keys && forall p, c | p in f && c in f[p].children :: c in g[p].children
    ensures x in g && other[x] <= other[r]
    decreases rank[r]
  {
    if r != x {
      var c := ContainsThrough(f, rank, r, x);
      assert Falls(g, other, r, c);
      DescendingRanks(f, rank, g, other, c, x);
    }
  }

  // ------------------------------------------------------------------ runs of include_router

  datatype Call<R> = Call(self: R, router: R)

  ghost function SomeRank<R(!new)>(f: Forest<R>): map<R, nat>
    requires WellFormed(f)
    ensures Ranked(f, SomeRank(f))
  {
    var rank :| Ranked(f, rank); rank
  }

  /** One call; a rejected one changes nothing. */
  ghost function Called<R(!new)>(f: Forest<R>, c: Call<R>): (g: Forest<R>)
    requires WellFormed(f) && c.self in f && c.router in f
    ensures WellFormed(g) && g.Keys == f.Keys
  {
    match Include(f, SomeRank(f), c.self, c.router)
    case Err(_) => f
    case Ok(g) => IncludeKeepsForest(f, SomeRank(f), c.self, c.router); g
  }

  ghost function After<R(!new)>(f: Forest<R>, calls: seq<Call<R>>): (g: Forest<R>)
    requires WellFormed(f) && forall c | c in calls :: c.self in f && c.router in f
    ensures WellFormed(g) && g.Keys == f.Keys
  {
    if calls == [] then f else
      assert calls[|calls| - 1] in calls;
      Called(After(f, calls[..|calls| - 1]), calls[|calls| - 1])
  }

  /** Whatever is included where, starting from detached routers, the links stay a forest. */
  lemma EveryRunIsAForest<R(!new)>(detached: Forest<R>, calls: seq<Call<R>>)
    requires forall r | r in detached :: detached[r].parent == None && detached[r].children == []
    requires forall c | c in calls :: c.self in detached && c.router in detached
    ensures WellFormed(detached) && WellFormed(After(detached, calls)) && After(detached, calls).Keys == detached.Keys
  {
    var rank: map<R, nat> := map r | r in detached :: 0;
    assert Ranked(detached, rank);
    assert WellFormed(detached);
  }

  // ------------------------------------------------------------------ the walk

  type Middleware = nat

  type Walked<R> = seq<(R, seq<Middleware>)>

  /** The children of r are routers of lower rank. */
  lemma ChildrenFall<R>(f: Forest<R>, rank: map<R, nat>, r: R)
    requires Ranked(f, rank) && r in f
    ensures forall c | c in f[r].children :: c in f && rank[c] < rank[r]
  {
    forall c | c in f[r].children ensures c in f && rank[c] < rank[r] { assert Falls(f, rank, r, c); }
  }

  /** _walk; own gives each router's own middleware. */
  function Walk<R(==)>(
    f: Forest<R>, ghost rank: map<R, nat>, own: map<R, seq<Middleware>>, r: R, inherited: seq<Middleware>): Walked<R>
    requires Ranked(f, rank) && r in f && own.Keys == f.Keys
    decreases rank[r], 1, 0
  {
    ChildrenFall(f, rank, r);
    [(r, inherited + own[r])] + WalkAll(f, rank, own, f[r].children, inherited + own[r], rank[r])
  }

  function WalkAll<R(==)>(
    f: Forest<R>, ghost rank: map<R, nat>, own: map<R, seq<Middleware>>, rs: seq<R>, inherited: seq<Middleware>,
    ghost bound: nat): Walked<R>
    requires Ranked(f, rank) && own.Keys == f.Keys
    requires forall r | r in rs :: r in f && rank[r] < bound
    decreases bound, 0, |rs|
  {
    if rs == [] then [] else
      Walk(f, rank, own, rs[0], inherited) + WalkAll(f, rank, own, rs[1..], inherited, bound)
  }

  /** The middleware along the path from root r down to x. */
  function PathMiddleware<R(==)>(
    f: Forest<R>, ghost rank: map<R, nat>, own: map<R, seq<Middleware>>, r: R, x: R): seq<Middleware>
    requires Linked(f) && Ranked(f, rank) && own.Keys == f.Keys && r in f && x in f && Contains(f, rank, r, x)
    decreases rank[r] as int - rank[x] as int
  {
    if x == r then own[r] else
      ContainsParent(f, rank, r, x);
      PathMiddleware(f, rank, own, r, f[x].parent.value) + own[x]
  }

  /** One step down from the root instead of one step up from x. */
  lemma {:induction false} PathFromChild<R>(
    f: Forest<R>, rank: map<R, nat>, own: map<R, seq<Middleware>>, r: R, c: R, x: R)
    requires Linked(f) && Ranked(f, rank) && own.Keys == f.Keys && r in f && c in f[r].children && c in f && x in f
    requires Contains(f, rank, c, x)
    ensures Contains(f, rank, r, x)
    ensures PathMiddleware(f, rank, own, r, x) == own[r] + PathMiddleware(f, rank, own, c, x)
    decreases rank[c] as int - rank[x] as int
  {
    ContainsStep(f, rank, r, c, x);
    ContainsRanks(f, rank, c, x);
    assert Falls(f, rank, r, c) && LinksDown(f, r, c);
    if x == c {
      assert PathMiddleware(f, rank, own, r, r) == own[r];
    } else {
      ContainsParent(f, rank, c, x);
      PathFromChild(f, rank, own, r, c, f[x].parent.value);
    }
  }

  /** Trees of two different children share nothing. */
  lemma {:induction false} SiblingsAreDisjoint<R>(f: Forest<R>, rank: map<R, nat>, p: R, c: R, d: R, x: R)
    requires Linked(f) && Ranked(f, rank) && p in f && c in f[p].children && d in f[p].children && c in f && d in f
      && x in f
    requires Contains(f, rank, c, x) && Contains(f, rank, d, x)
    ensures c == d
    decreases rank[c] as int - rank[x] as int
  {
    assert Falls(f, rank, p, c) && Falls(f, rank, p, d) && LinksDown(f, p, c) && LinksDown(f, p, d);
    ContainsRanks(f, rank, c, x);
    if x != c && x != d {
      ContainsParent(f, rank, c, x);
      ContainsParent(f, rank, d, x);
      SiblingsAreDisjoint(f, rank, p, c, d, f[x].parent.value);
    } else if x != d {
      ContainsParent(f, rank, d, x);
    } else if x != c {
      ContainsParent(f, rank, c, x);
    }
  }

  // ------------------------------------------------------------------ what the walk yields

  /** An entry of the walk from r: a router of r's tree, with the middleware of its path. */
  ghost predicate Entry<R>(
    f: Forest<R>, rank: map<R, nat>, own: map<R, seq<Middleware>>, r: R, inherited: seq<Middleware>,
    e: (R, seq<Middleware>))
    requires Linked(f) && Ranked(f, rank) && own.Keys == f.Keys && r in f
  {
    e.0 in f && Contains(f, rank, r, e.0) && e.1 == inherited + PathMiddleware(f, rank, own, r, e.0)
  }

  ghost predicate Distinct<R>(w: Walked<R>) {
    forall i, j | 0 <= i < j < |w| :: w[i].0 != w[j].0
  }

  /** a comes before b. */
  ghost predicate Precedes<R>(w: Walked<R>, a: R, b: R) {
    exists i, j | 0 <= i < j < |w| :: w[i].0 == a && w[j].0 == b
  }

  ghost predicate Meets<R>(w: Walked<R>, x: R) {
    exists i | 0 <= i < |w| :: w[i].0 == x
  }

  /** rs are children of p, each once: the shape WalkAll runs on. */
  ghost predicate Siblings<R>(f: Forest<R>, rank: map<R, nat>, p: R, rs: seq<R>)
    requires Ranked(f, rank)
  {
    && p in f
    && (forall c | c in rs :: c in f[p].children && c in f && rank[c] < rank[p])
    && (forall i, j | 0 <= i < j < |rs| :: rs[i] != rs[j])
  }

  lemma ChildrenAreSiblings<R>(f: Forest<R>, rank: map<R, nat>, r: R)
    requires Linked(f) && Ranked(f, rank) && r in f
    ensures Siblings(f, rank, r, f[r].children)
  {
    ChildrenFall(f, rank, r);
    assert Tidy(f, r);
  }

  /** Sound: every entry is a router of the tree with its path's middleware. */
  lemma {:induction false} WalkIsSound<R>(
    f: Forest<R>, rank: map<R, nat>, own: map<R, seq<Middleware>>, r: R, inherited: seq<Middleware>)
    requires Linked(f) && Ranked(f, rank) && r in f && own.Keys == f.Keys
    ensures forall e | e in Walk(f, rank, own, r, inherited) :: Entry(f, rank, own, r, inherited, e)
    decreases rank[r], 1, 0
  {
    ChildrenAreSiblings(f, rank, r);
    WalkAllIsSound(f, rank, own, r, f[r].children, inherited + own[r]);
    var below := WalkAll(f, rank, own, f[r].children, inherited + own[r], rank[r]);
    forall e | e in below ensures Entry(f, rank, own, r, inherited, e) {
      var c :| c in f[r].children && Entry(f, rank, own, c, inherited + own[r], e);
      PathFromChild(f, rank, own, r, c, e.0);
    }
  }

  lemma {:induction false} WalkAllIsSound<R>(
    f: Forest<R>, rank: map<R, nat>, own: map<R, seq<Middleware>>, p: R, rs: seq<R>, inherited: seq<Middleware>)
    requires Linked(f) && Ranked(f, rank) && own.Keys == f.Keys && Siblings(f, rank, p, rs)
    ensures forall e | e in WalkAll(f, rank, own, rs, inherited, rank[p]) ::
      exists c | c in rs :: Entry(f, rank, own, c, inherited, e)
    decreases rank[p], 0, |rs|
  {
    if rs != [] {
      WalkIsSound(f, rank, own, rs[0], inherited);
      assert Siblings(f, rank, p, rs[1..]);
      WalkAllIsSound(f, rank, own, p, rs[1..], inherited);
      forall e | e in WalkAll(f, rank, own, rs, inherited, rank[p])
        ensures exists c | c in rs :: Entry(f, rank, own, c, inherited, e)
      {
        if e in Walk(f, rank, own, rs[0], inherited) {
          assert rs[0] in rs;
        } else {
          assert e in WalkAll(f, rank, own, rs[1..], inherited, rank[p]);
          var c :| c in rs[1..] && Entry(f, rank, own, c, inherited, e);
          assert c in rs;
        }
      }
    }
  }

  lemma MeetsConcat<R>(u: Walked<R>, v: Walked<R>, x: R)
    requires Meets(u, x) || Meets(v, x)
    ensures Meets(u + v, x)
  {
    if Meets(u, x) {
      var i :| 0 <= i < |u| && u[i].0 == x;
      assert (u + v)[i].0 == x;
    } else {
      var i :| 0 <= i < |v| && v[i].0 == x;
      assert (u + v)[|u| + i].0 == x;
    }
  }

  /** Complete: every router of the tree is met. */
  lemma {:induction false} WalkIsComplete<R>(
    f: Forest<R>, rank: map<R, nat>, own: map<R, seq<Middleware>>, r: R, inherited: seq<Middleware>, x: R)
    requires Ranked(f, rank) && r in f && own.Keys == f.Keys && Contains(f, rank, r, x)
    ensures Meets(Walk(f, rank, own, r, inherited), x)
    decreases rank[r], 1, 0
  {
    ChildrenFall(f, rank, r);
    var rest := WalkAll(f, rank, own, f[r].children, inherited + own[r], rank[r]);
    if x == r {
      assert Walk(f, rank, own, r, inherited)[0].0 == x;
    } else {
      var c := ContainsThrough(f, rank, r, x);
      WalkAllIsComplete(f, rank, own, f[r].children, inherited + own[r], rank[r], c, x);
      MeetsConcat([(r, inherited + own[r])], rest, x);
    }
  }

  lemma {:induction false} WalkAllIsComplete<R>(
    f: Forest<R>, rank: map<R, nat>, own: map<R, seq<Middleware>>, rs: seq<R>, inherited: seq<Middleware>, bound: nat,
    c: R, x: R)
    requires Ranked(f, rank) && own.Keys == f.Keys && (forall r | r in rs :: r in f && rank[r] < bound)
    requires c in rs && Contains(f, rank, c, x)
    ensures Meets(WalkAll(f, rank, own, rs, inherited, bound), x)
    decreases bound, 0, |rs|
  {
    if c == rs[0] {
      WalkIsComplete(f, rank, own, c, inherited, x);
    } else {
      WalkAllIsComplete(f, rank, own, rs[1..], inherited, bound, c, x);
    }
    MeetsConcat(Walk(f, rank, own, rs[0], inherited), WalkAll(f, rank, own, rs[1..], inherited, bound), x);
  }

  lemma DistinctConcat<R>(u: Walked<R>, v: Walked<R>)
    requires Distinct(u) && Distinct(v) && forall e, g | e in u && g in v :: e.0 != g.0
    ensures Distinct(u + v)
  {
    forall i, j | 0 <= i < j < |u + v| ensures (u + v)[i].0 != (u + v)[j].0 {
      if i < |u| <= j { assert u[i] in u && v[j - |u|] in v; }
    }
  }

  /** No router is met twice. */
  lemma {:induction false} WalkIsDistinct<R>(
    f: Forest<R>, rank: map<R, nat>, own: map<R, seq<Middleware>>, r: R, inherited: seq<Middleware>)
    requires Linked(f) && Ranked(f, rank) && r in f && own.Keys == f.Keys
    ensures Distinct(Walk(f, rank, own, r, inherited))
    decreases rank[r], 1, 0
  {
    ChildrenAreSiblings(f, rank, r);
    WalkAllIsDistinct(f, rank, own, r, f[r].children, inherited + own[r]);
    WalkAllIsSound(f, rank, own, r, f[r].children, inherited + own[r]);
    var below := WalkAll(f, rank, own, f[r].children, inherited + own[r], rank[r]);
    forall e | e in below ensures e.0 != r {
      var c :| c in f[r].children && Entry(f, rank, own, c, inherited + own[r], e);
      ContainsRanks(f, rank, c, e.0);
    }
    DistinctConcat([(r, inherited + own[r])], below);
  }

  lemma {:induction false} WalkAllIsDistinct<R>(
    f: Forest<R>, rank: map<R, nat>, own: map<R, seq<Middleware>>, p: R, rs: seq<R>, inherited: seq<Middleware>)
    requires Linked(f) && Ranked(f, rank) && own.Keys == f.Keys && Siblings(f, rank, p, rs)
    ensures Distinct(WalkAll(f, rank, own, rs, inherited, rank[p]))
    decreases rank[p], 0, |rs|
  {
    if rs != [] {
      var first, rest := Walk(f, rank, own, rs[0], inherited), WalkAll(f, rank, own, rs[1..], inherited, rank[p]);
      assert Siblings(f, rank, p, rs[1..]);
      WalkIsDistinct(f, rank, own, rs[0], inherited);
      WalkAllIsDistinct(f, rank, own, p, rs[1..], inherited);
      WalkIsSound(f, rank, own, rs[0], inherited);
      WalkAllIsSound(f, rank, own, p, rs[1..], inherited);
      forall e, g | e in first && g in rest ensures e.0 != g.0 {
        var c :| c in rs[1..] && Entry(f, rank, own, c, inherited, g);
        assert Entry(f, rank, own, rs[0], inherited, e);
        if e.0 == g.0 { SiblingsAreDisjoint(f, rank, p, rs[0], c, e.0); }
      }
      DistinctConcat(first, rest);
    }
  }

  lemma PrecedesConcat<R>(u: Walked<R>, v: Walked<R>, a: R, b: R)
    ensures Precedes(u, a, b) || Precedes(v, a, b) || (Meets(u, a) && Meets(v, b)) ==> Precedes(u + v, a, b)
  {
    if Precedes(u, a, b) {
      var i, j :| 0 <= i < j < |u| && u[i].0 == a && u[j].0 == b;
      assert (u + v)[i].0 == a && (u + v)[j].0 == b;
    } else if Precedes(v, a, b) {
      var i, j :| 0 <= i < j < |v| && v[i].0 == a && v[j].0 == b;
      assert (u + v)[|u| + i].0 == a && (u + v)[|u| + j].0 == b;
    } else if Meets(u, a) && Meets(v, b) {
      var i :| 0 <= i < |u| && u[i].0 == a;
      var j :| 0 <= j < |v| && v[j].0 == b;
      assert (u + v)[i].0 == a && (u + v)[|u| + j].0 == b;
    }
  }

  /** What precedes inside the walk of one child precedes in the walk of all. */
  lemma {:induction false} PrecedesInAll<R>(
    f: Forest<R>, rank: map<R, nat>, own: map<R, seq<Middleware>>, rs: seq<R>, inherited: seq<Middleware>, bound: nat,
    c: R, a: R, b: R)
    requires Ranked(f, rank) && own.Keys == f.Keys && (forall r | r in rs :: r in f && rank[r] < bound)
    requires c in rs && Precedes(Walk(f, rank, own, c, inherited), a, b)
    ensures Precedes(WalkAll(f, rank, own, rs, inherited, bound), a, b)
    decreases |rs|
  {
    PrecedesConcat(Walk(f, rank, own, rs[0], inherited), WalkAll(f, rank, own, rs[1..], inherited, bound), a, b);
    if c != rs[0] {
      PrecedesInAll(f, rank, own, rs[1..], inherited, bound, c, a, b);
    }
  }

  /** Pre-order, part one: a parent comes before its children. */
  lemma {:induction false} ParentsFirst<R>(
    f: Forest<R>, rank: map<R, nat>, own: map<R, seq<Middleware>>, r: R, inherited: seq<Middleware>, p: R, c: R)
    requires Ranked(f, rank) && r in f && own.Keys == f.Keys
    requires p in f && c in f[p].children && Contains(f, rank, r, p)
    ensures Precedes(Walk(f, rank, own, r, inherited), p, c)
    decreases rank[r]
  {
    ChildrenFall(f, rank, r);
    var head := [(r, inherited + own[r])];
    var rest := WalkAll(f, rank, own, f[r].children, inherited + own[r], rank[r]);
    PrecedesConcat(head, rest, p, c);
    if p == r {
      assert head[0].0 == p;
      assert Contains(f, rank, c, c);
      WalkAllIsComplete(f, rank, own, f[r].children, inherited + own[r], rank[r], c, c);
    } else {
      var d := ContainsThrough(f, rank, r, p);
      ParentsFirst(f, rank, own, d, inherited + own[r], p, c);
      PrecedesInAll(f, rank, own, f[r].children, inherited + own[r], rank[r], d, p, c);
    }
  }

  lemma {:induction false} EarlierChildFirst<R>(
    f: Forest<R>, rank: map<R, nat>, own: map<R, seq<Middleware>>, rs: seq<R>, inherited: seq<Middleware>, bound: nat,
    i: nat, j: nat, a: R, b: R)
    requires Ranked(f, rank) && own.Keys == f.Keys && (forall r | r in rs :: r in f && rank[r] < bound)
    requires i < j < |rs| && Contains(f, rank, rs[i], a) && Contains(f, rank, rs[j], b)
    ensures Precedes(WalkAll(f, rank, own, rs, inherited, bound), a, b)
    decreases |rs|
  {
    PrecedesConcat(Walk(f, rank, own, rs[0], inherited), WalkAll(f, rank, own, rs[1..], inherited, bound), a, b);
    if i == 0 {
      WalkIsComplete(f, rank, own, rs[0], inherited, a);
      assert rs[j] == rs[1..][j - 1];
      WalkAllIsComplete(f, rank, own, rs[1..], inherited, bound, rs[j], b);
    } else {
      EarlierChildFirst(f, rank, own, rs[1..], inherited, bound, i - 1, j - 1, a, b);
    }
  }

  /** Pre-order, part two: the whole tree of an earlier child comes before that of a later one. */
  lemma {:induction false} EarlierTreesFirst<R>(
    f: Forest<R>, rank: map<R, nat>, own: map<R, seq<Middleware>>, r: R, inherited: seq<Middleware>, p: R, i: nat,
    j: nat, a: R, b: R)
    requires Ranked(f, rank) && r in f && own.Keys == f.Keys && p in f && Contains(f, rank, r, p)
    requires i < j < |f[p].children| && f[p].children[i] in f && f[p].children[j] in f
    requires Contains(f, rank, f[p].children[i], a) && Contains(f, rank, f[p].children[j], b)
    ensures Precedes(Walk(f, rank, own, r, inherited), a, b)
    decreases rank[r]
  {
    ChildrenFall(f, rank, r);
    var rest := WalkAll(f, rank, own, f[r].children, inherited + own[r], rank[r]);
    PrecedesConcat([(r, inherited + own[r])], rest, a, b);
    if p == r {
      EarlierChildFirst(f, rank, own, f[r].children, inherited + own[r], rank[r], i, j, a, b);
    } else {
      var d := ContainsThrough(f, rank, r, p);
      EarlierTreesFirst(f, rank, own, d, inherited + own[r], p, i, j, a, b);
      PrecedesInAll(f, rank, own, f[r].children, inherited + own[r], rank[r], d, a, b);
    }
  }

  /** Order of registration: the walk comes to an included router, and to all below it, after
      everything below the routers its parent had included before. */
  lemma IncludedRoutersComeLast<R(!new)>(
    f: Forest<R>, rank: map<R, nat>, s: R, r: R, own: map<R, seq<Middleware>>, root: R, c: R, a: R, b: R)
    requires Linked(f) && Ranked(f, rank) && s in f && r in f && own.Keys == f.Keys && root in f
    requires Include(f, rank, s, r).Ok? && c in f[s].children
    ensures
      var g, after := Include(f, rank, s, r).value, Raised(f, rank, r);
      && Linked(g) && Ranked(g, after) && g.Keys == f.Keys && c in g
      && (Contains(g, after, root, s) && Contains(g, after, c, a) && Contains(g, after, r, b) ==>
            Precedes(Walk(g, after, own, root, []), a, b))
  {
    IncludeKeepsRanks(f, rank, s, r);
    IncludeKeepsLinks(f, rank, s, r);
    assert Falls(f, rank, s, c);
    var g, after := Include(f, rank, s, r).value, Raised(f, rank, r);
    var i :| 0 <= i < |f[s].children| && f[s].children[i] == c;
    assert g[s].children[i] == c && g[s].children[|f[s].children|] == r;
    if Contains(g, after, root, s) && Contains(g, after, c, a) && Contains(g, after, r, b) {
      EarlierTreesFirst(g, after, own, root, [], s, i, |f[s].children|, a, b);
    }
  }

  /** The walk meets exactly the routers of the tree, each once, each with the middleware of its
      path from the root. */
  lemma WalkVisitsTheTreeOnce<R>(f: Forest<R>, rank: map<R, nat>, own: map<R, seq<Middleware>>, r: R)
    requires Linked(f) && Ranked(f, rank) && r in f && own.Keys == f.Keys
    ensures
      var w := Walk(f, rank, own, r, []);
      && Distinct(w)
      && (forall x :: Meets(w, x) <==> Contains(f, rank, r, x))
      && (forall e | e in w :: e.0 in f && Contains(f, rank, r, e.0) && e.1 == PathMiddleware(f, rank, own, r, e.0))
  {
    var w := Walk(f, rank, own, r, []);
    WalkIsDistinct(f, rank, own, r, []);
    WalkIsSound(f, rank, own, r, []);
    forall x ensures Meets(w, x) <==> Contains(f, rank, r, x) {
      if Contains(f, rank, r, x) { WalkIsComplete(f, rank, own, r, [], x); }
      if Meets(w, x) {
        var i :| 0 <= i < |w| && w[i].0 == x;
        assert w[i] in w && Entry(f, rank, own, r, [], w[i]);
      }
    }
  }

  // ------------------------------------------------------------------ the objects

  /** Router: the links as object fields. universe is the set of routers there are. */
  class Router {
    const dispatcher: bool
    var parent: Router?
    var children: seq<Router>

    constructor (dispatcher: bool)
      ensures parent == null && children == [] && this.dispatcher == dispatcher
    {
      this.dispatcher := dispatcher;
      parent, children := null, [];
    }

    static ghost function Snapshot(universe: set<Router>): (f: Forest<Router>)
      reads universe
      ensures f.Keys == universe
    {
      map r | r in universe :: Node(if r.parent == null then None else Some(r.parent), r.children, r.dispatcher)
    }

    predicate ContainsRouter(candidate: Router, ghost universe: set<Router>, ghost rank: map<Router, nat>)
      requires this in universe && Ranked(Snapshot(universe), rank)
      reads universe
      ensures ContainsRouter(candidate, universe, rank) == Contains(Snapshot(universe), rank, this, candidate)
      decreases rank[this]
    {
      this == candidate || exists c | c in children ::
        (assert Falls(Snapshot(universe), rank, this, c); c.ContainsRouter(candidate, universe, rank))
    }

    /** after: a ranking of the new forest. */
    method IncludeRouter(router: Router, ghost universe: set<Router>, ghost rank: map<Router, nat>)
      returns (r: Result<Router, ConfigurationError>, ghost after: map<Router, nat>)
      requires this in universe && router in universe
      requires Linked(Snapshot(universe)) && Ranked(Snapshot(universe), rank)
      modifies this, router
      ensures match Include(old(Snapshot(universe)), rank, this, router)
              case Ok(g) => r == Ok(router) && Snapshot(universe) == g
              case Err(e) => r == Err(e) && Snapshot(universe) == old(Snapshot(universe))
      ensures Linked(Snapshot(universe)) && Ranked(Snapshot(universe), after)
    {
      ghost var f := Snapshot(universe);
      after := rank;
      if router == this { return Err(IncludesItself), after; }
      if router.dispatcher { return Err(IncludesDispatcher), after; }
      if router.parent != null { return Err(AlreadyAttached), after; }
      if router.ContainsRouter(this, universe, rank) { return Err(WouldCycle), after; }
      router.parent := this;
      children := children + [router];
      IncludeKeepsRanks(f, rank, this, router);
      IncludeKeepsLinks(f, rank, this, router);
      assert Snapshot(universe) == Attached(f, this, router);
      after := Raised(f, rank, router);
      return Ok(router), after;
    }
  }
}
