/**
 * The dependency graph of a lock file: a worklist walk over edges, where an edge names a package,
 * perhaps a version, and the extras it asks for.
 */
module Closure {
  import opened Options

  datatype Edge = Edge(name: string, version: Option<string>, extras: seq<string>)
  datatype Package = Package(name: string, version: string, deps: seq<Edge>, optional: map<string, seq<Edge>>)

  /** Name and version; the source joins them into one string. */
  datatype Purl = Purl(name: string, version: string)

  type Lock = seq<Package>
  type Graph = map<Purl, set<Purl>>

  function PurlOf(p: Package): Purl { Purl(p.name, p.version) }

  predicate Matches(p: Package, e: Edge) { p.name == e.name && (e.version.None? || e.version.value == p.version) }

  /** First match in file order; None where the source raises. */
  function Find(lock: Lock, e: Edge): (p: Option<Package>)
    ensures p.Some? ==> p.value in lock && p.value.name == e.name
  {
    if lock == [] then None
    else if Matches(lock[0], e) then Some(lock[0])
    else Find(lock[1..], e)
  }

  function ExtraEdges(p: Package, extras: seq<string>): seq<Edge> {
    if extras == [] then [] else
      (if extras[0] in p.optional then p.optional[extras[0]] else []) + ExtraEdges(p, extras[1..])
  }

  function Outs(lock: Lock, e: Edge): seq<Edge> {
    match Find(lock, e)
    case None => []
    case Some(p) => p.deps + ExtraEdges(p, e.extras)
  }

  predicate Resolves(lock: Lock, e: Edge) { Find(lock, e).Some? }

  /** Expanding an edge resolves it and everything it leads to. */
  predicate Expands(lock: Lock, e: Edge) { Resolves(lock, e) && forall o :: o in Outs(lock, e) ==> Resolves(lock, o) }

  function Key(lock: Lock, e: Edge): Purl
    requires Resolves(lock, e)
  {
    PurlOf(Find(lock, e).value)
  }

  function Deps(lock: Lock, e: Edge): set<Purl>
    requires Expands(lock, e)
  {
    set o | o in Outs(lock, e) :: Key(lock, o)
  }

  predicate Covers(lock: Lock, graph: Graph, e: Edge) {
    Expands(lock, e) && Key(lock, e) in graph && Deps(lock, e) <= graph[Key(lock, e)]
  }

  function Record(lock: Lock, graph: Graph, e: Edge): Graph
    requires Expands(lock, e)
  {
    var k := Key(lock, e);
    graph[k := (if k in graph then graph[k] else {}) + Deps(lock, e)]
  }

  // ---- the walk ----------------------------------------------------------------------------------------

  datatype Fact = Known(purl: Purl) | Needs(purl: Purl, dep: Purl)

  function Purls(lock: Lock): set<Purl> { set p | p in lock :: PurlOf(p) }

  ghost function AllFacts(lock: Lock): set<Fact> {
    (set p | p in Purls(lock) :: Known(p)) + (set p, q | p in Purls(lock) && q in Purls(lock) :: Needs(p, q))
  }

  ghost predicate Holds(graph: Graph, f: Fact) {
    f.purl in graph && (f.Needs? ==> f.dep in graph[f.purl])
  }

  /** What the walk can still learn. */
  ghost function Missing(lock: Lock, graph: Graph): set<Fact> { set f | f in AllFacts(lock) && !Holds(graph, f) }

  lemma KeyInLock(lock: Lock, e: Edge)
    requires Resolves(lock, e)
    ensures Key(lock, e) in Purls(lock)
  {
  }

  lemma RecordLearns(lock: Lock, graph: Graph, e: Edge)
    requires Expands(lock, e) && !Covers(lock, graph, e)
    ensures Missing(lock, Record(lock, graph, e)) < Missing(lock, graph)
  {
    var k, g' := Key(lock, e), Record(lock, graph, e);
    KeyInLock(lock, e);
    forall f | f in Missing(lock, g') ensures f in Missing(lock, graph) { assert Holds(graph, f) ==> Holds(g', f); }
    if k !in graph {
      assert Known(k) in Missing(lock, graph) && Holds(g', Known(k));
    } else {
      var d :| d in Deps(lock, e) && d !in graph[k];
      var o :| o in Outs(lock, e) && Key(lock, o) == d;
      KeyInLock(lock, o);
      assert Needs(k, d) in Missing(lock, graph) && Holds(g', Needs(k, d));
    }
  }

  /** The walk from a stack (popped from the end) and a graph; None where the source raises. */
  function Walk(lock: Lock, stack: seq<Edge>, graph: Graph): Option<Graph>
    decreases Missing(lock, graph), |stack|
  {
    if stack == [] then Some(graph) else
      var e, rest := stack[|stack| - 1], stack[..|stack| - 1];
      if !Expands(lock, e) then None
      else if Covers(lock, graph, e) then Walk(lock, rest, graph)
      else
        RecordLearns(lock, graph, e);
        Walk(lock, rest + Outs(lock, e), Record(lock, graph, e))
  }

  method Reach(lock: Lock, start: seq<Edge>) returns (r: Option<Graph>)
    ensures r == Walk(lock, start, map[])
  {
    var graph: Graph, stack := map[], start;
    while stack != []
      invariant Walk(lock, stack, graph) == Walk(lock, start, map[])
      decreases Missing(lock, graph), |stack|
    {
      var e := stack[|stack| - 1];
      stack := stack[..|stack| - 1];
      if !Expands(lock, e) { return None; }
      if Covers(lock, graph, e) { continue; }
      RecordLearns(lock, graph, e);
      graph := Record(lock, graph, e);
      stack := stack + Outs(lock, e);
    }
    return Some(graph);
  }

  // ---- what is reachable -------------------------------------------------------------------------------

  /** A chain of edges, each among what the one before leads to. */
  datatype Chain = First(edge: Edge) | Longer(prev: Chain, edge: Edge)

  ghost predicate Linked(lock: Lock, start: seq<Edge>, c: Chain) {
    match c
    case First(e) => e in start
    case Longer(prev, e) => Linked(lock, start, prev) && e in Outs(lock, prev.edge)
  }

  ghost predicate Reached(lock: Lock, start: seq<Edge>, e: Edge) { exists c :: Linked(lock, start, c) && c.edge == e }

  lemma ReachedNext(lock: Lock, start: seq<Edge>, e: Edge, o: Edge)
    requires Reached(lock, start, e) && o in Outs(lock, e)
    ensures Reached(lock, start, o)
  {
    var c :| Linked(lock, start, c) && c.edge == e;
    assert Linked(lock, start, Longer(c, o));
  }

  /** `e` is an edge that accounts for the key `k`, and for its dependency on `q`. */
  ghost predicate Names(lock: Lock, e: Edge, k: Purl) { Expands(lock, e) && Key(lock, e) == k }

  ghost predicate Explains(lock: Lock, e: Edge, k: Purl, q: Purl) { Names(lock, e, k) && q in Deps(lock, e) }

  ghost predicate Sound(lock: Lock, start: seq<Edge>, graph: Graph) {
    && (forall k :: k in graph ==> exists e :: Reached(lock, start, e) && Names(lock, e, k))
    && (forall k, q :: k in graph && q in graph[k] ==> exists e :: Reached(lock, start, e) && Explains(lock, e, k, q))
  }

  lemma RecordSound(lock: Lock, start: seq<Edge>, graph: Graph, e: Edge)
    requires Sound(lock, start, graph) && Reached(lock, start, e) && Expands(lock, e)
    ensures Sound(lock, start, Record(lock, graph, e))
  {
    var g' := Record(lock, graph, e);
    forall k | k in g' ensures exists d :: Reached(lock, start, d) && Names(lock, d, k) {
      if k !in graph { assert Names(lock, e, k); }
    }
    forall k, q | k in g' && q in g'[k] ensures exists d :: Reached(lock, start, d) && Explains(lock, d, k, q) {
      if !(k in graph && q in graph[k]) { assert Explains(lock, e, k, q); }
    }
  }

  lemma {:induction false} WalkSound(lock: Lock, start: seq<Edge>, stack: seq<Edge>, graph: Graph)
    requires Sound(lock, start, graph) && forall e :: e in stack ==> Reached(lock, start, e)
    ensures Walk(lock, stack, graph).Some? ==> Sound(lock, start, Walk(lock, stack, graph).value)
    ensures Walk(lock, stack, graph).None? ==> exists e :: Reached(lock, start, e) && !Expands(lock, e)
    decreases Missing(lock, graph), |stack|
  {
    if stack != [] {
      var e, rest := stack[|stack| - 1], stack[..|stack| - 1];
      assert Reached(lock, start, e);
      if Expands(lock, e) {
        if Covers(lock, graph, e) {
          WalkSound(lock, start, rest, graph);
        } else {
          RecordLearns(lock, graph, e);
          RecordSound(lock, start, graph, e);
          forall o | o in Outs(lock, e) ensures Reached(lock, start, o) { ReachedNext(lock, start, e, o); }
          WalkSound(lock, start, rest + Outs(lock, e), Record(lock, graph, e));
        }
      }
    }
  }

  /** Nothing is recorded that a path of edges does not account for, and only a dangling edge raises. */
  lemma ReachIsSound(lock: Lock, start: seq<Edge>)
    ensures Walk(lock, start, map[]).Some? ==> Sound(lock, start, Walk(lock, start, map[]).value)
    ensures Walk(lock, start, map[]).None? ==> exists e :: Reached(lock, start, e) && !Expands(lock, e)
  {
    forall e | e in start ensures Reached(lock, start, e) { assert Linked(lock, start, First(e)); }
    WalkSound(lock, start, start, map[]);
  }

  // ---- what the walk has dealt with --------------------------------------------------------------------

  /** `done` are the edges recorded so far and `seen` the edges popped so far, skipped ones included. */
  ghost predicate Pending(lock: Lock, start: seq<Edge>, stack: seq<Edge>, done: set<Edge>, seen: set<Edge>) {
    && (forall e :: e in start ==> e in seen || e in stack)
    && (forall d, o :: d in done && o in Outs(lock, d) ==> o in seen || o in stack)
  }

  ghost predicate Explained(lock: Lock, graph: Graph, done: set<Edge>) {
    && (forall k :: k in graph ==> exists d :: d in done && Names(lock, d, k))
    && (forall k, q :: k in graph && q in graph[k] ==> exists d :: d in done && Explains(lock, d, k, q))
  }

  ghost predicate Covered(lock: Lock, graph: Graph, seen: set<Edge>) {
    forall e :: e in seen ==> Covers(lock, graph, e)
  }

  ghost predicate Progress(lock: Lock, start: seq<Edge>, stack: seq<Edge>, graph: Graph, done: set<Edge>,
                           seen: set<Edge>) {
    Pending(lock, start, stack, done, seen) && Explained(lock, graph, done) && Covered(lock, graph, seen)
  }

  lemma PendingPop(lock: Lock, start: seq<Edge>, stack: seq<Edge>, done: set<Edge>, seen: set<Edge>)
    requires Pending(lock, start, stack, done, seen) && stack != []
    ensures var e, rest := stack[|stack| - 1], stack[..|stack| - 1];
            && Pending(lock, start, rest, done, seen + {e})
            && Pending(lock, start, rest + Outs(lock, e), done + {e}, seen + {e})
  {
    var e, rest := stack[|stack| - 1], stack[..|stack| - 1];
    assert stack == rest + [e];
  }

  lemma ExplainedRecord(lock: Lock, graph: Graph, done: set<Edge>, e: Edge)
    requires Explained(lock, graph, done) && Expands(lock, e)
    ensures Explained(lock, Record(lock, graph, e), done + {e})
  {
    var g' := Record(lock, graph, e);
    forall k | k in g' ensures exists d :: d in done + {e} && Names(lock, d, k) {
      if k in graph {
        var d :| d in done && Names(lock, d, k);
        assert d in done + {e};
      } else {
        assert Names(lock, e, k);
      }
    }
    forall k, q | k in g' && q in g'[k] ensures exists d :: d in done + {e} && Explains(lock, d, k, q) {
      if k in graph && q in graph[k] {
        var d :| d in done && Explains(lock, d, k, q);
        assert d in done + {e};
      } else {
        assert Explains(lock, e, k, q);
      }
    }
  }

  lemma CoveredRecord(lock: Lock, graph: Graph, seen: set<Edge>, e: Edge)
    requires Covered(lock, graph, seen) && Expands(lock, e)
    ensures Covered(lock, Record(lock, graph, e), seen + {e})
  {
    forall x | x in seen + {e} ensures Covers(lock, Record(lock, graph, e), x) {
      if x in seen { assert Covers(lock, graph, x); }
    }
  }

  lemma {:induction false} WalkSettles(lock: Lock, start: seq<Edge>, stack: seq<Edge>, graph: Graph,
                                       done: set<Edge>, seen: set<Edge>) returns (done': set<Edge>, seen': set<Edge>)
    requires Progress(lock, start, stack, graph, done, seen) && Walk(lock, stack, graph).Some?
    ensures Progress(lock, start, [], Walk(lock, stack, graph).value, done', seen')
    decreases Missing(lock, graph), |stack|
  {
    if stack == [] {
      done', seen' := done, seen;
    } else {
      var e, rest := stack[|stack| - 1], stack[..|stack| - 1];
      PendingPop(lock, start, stack, done, seen);
      if Covers(lock, graph, e) {
        done', seen' := WalkSettles(lock, start, rest, graph, done, seen + {e});
      } else {
        RecordLearns(lock, graph, e);
        ExplainedRecord(lock, graph, done, e);
        CoveredRecord(lock, graph, seen, e);
        done', seen' := WalkSettles(lock, start, rest + Outs(lock, e), Record(lock, graph, e), done + {e}, seen + {e});
      }
    }
  }

  lemma OutBehind(lock: Lock, graph: Graph, done: set<Edge>, k: Purl, q: Purl) returns (d: Edge, o: Edge)
    requires Explained(lock, graph, done) && k in graph && q in graph[k]
    ensures d in done && Names(lock, d, k) && o in Outs(lock, d) && Resolves(lock, o) && Key(lock, o) == q
  {
    d :| d in done && Explains(lock, d, k, q);
    o :| o in Outs(lock, d) && Key(lock, o) == q;
  }

  lemma ExplainedOut(lock: Lock, start: seq<Edge>, graph: Graph, done: set<Edge>, seen: set<Edge>, k: Purl, q: Purl)
    returns (d: Edge, o: Edge)
    requires Progress(lock, start, [], graph, done, seen) && k in graph && q in graph[k]
    ensures d in done && Names(lock, d, k) && o in Outs(lock, d) && o in seen && Names(lock, o, q)
  {
    d, o := OutBehind(lock, graph, done, k, q);
    assert Covers(lock, graph, o);
  }

  /** Every direct dependency is a key, and every recorded dependency is a key itself. */
  lemma ReachIsClosed(lock: Lock, start: seq<Edge>, graph: Graph)
    requires Walk(lock, start, map[]) == Some(graph)
    ensures forall e :: e in start ==> Covers(lock, graph, e)
    ensures forall k, q :: k in graph && q in graph[k] ==> q in graph
  {
    var done, seen := WalkSettles(lock, start, start, map[], {}, {});
    forall k, q | k in graph && q in graph[k] ensures q in graph {
      var d, o := ExplainedOut(lock, start, graph, done, seen, k, q);
      assert Covers(lock, graph, o);
    }
  }

  // ---- completeness ------------------------------------------------------------------------------------

  /** Both edges lead to the same package, and `b` on to all that `a` leads on to. */
  ghost predicate Replaces(lock: Lock, b: Edge, a: Edge) {
    Find(lock, b) == Find(lock, a) && forall o :: o in Outs(lock, a) ==> o in Outs(lock, b)
  }

  predicate SameKey(lock: Lock, a: Edge, b: Edge) {
    Resolves(lock, a) && Resolves(lock, b) && Key(lock, a) == Key(lock, b)
  }

  /** The package asks for `b` without its extra `x`: always, or with another extra. */
  ghost predicate Elsewhere(p: Package, x: string, b: Edge) {
    b in p.deps || exists y :: y in p.optional && y != x && b in p.optional[y]
  }

  /** The extra `x` names no package that is not named elsewhere, so that asking for it can be skipped. */
  ghost predicate Skippable(lock: Lock, p: Package, x: string)
    requires x in p.optional
  {
    forall a :: a in p.optional[x] ==> exists b :: Elsewhere(p, x, b) && SameKey(lock, a, b)
  }

  ghost predicate TakenFor(lock: Lock, p: Package, x: string, a: Edge, b: Edge) {
    x in p.optional && Skippable(lock, p, x) && a in p.optional[x] && Elsewhere(p, x, b) && SameKey(lock, a, b)
  }

  /** Where asking for an extra can be skipped, its edges lead nowhere that the edges they are taken for do not lead. */
  ghost predicate Consistent(lock: Lock) {
    forall p, x, a, b :: p in lock && TakenFor(lock, p, x, a, b) ==> Replaces(lock, b, a)
  }

  lemma {:induction false} KeyNamesPackage(lock: Lock, a: Edge, b: Edge)
    requires SameKey(lock, a, b)
    ensures Find(lock, a) == Find(lock, b)
  {
    FindVersion(lock, a);
    FindVersion(lock, b);
    if !Matches(lock[0], a) && !Matches(lock[0], b) { KeyNamesPackage(lock[1..], a, b); }
  }

  /** An edge resolves to the first package in the file with its name and, if it gives one, its version. */
  lemma {:induction false} FindsTheFirst(lock: Lock, e: Edge, i: nat)
    requires i < |lock|
    ensures Find(lock, e).Some? ==> Matches(Find(lock, e).value, e)
    ensures Matches(lock[i], e) && (forall j :: 0 <= j < i ==> !Matches(lock[j], e)) ==> Find(lock, e) == Some(lock[i])
    ensures Find(lock, e).None? ==> !Matches(lock[i], e)
  {
    if !Matches(lock[0], e) {
      if i > 0 {
        FindsTheFirst(lock[1..], e, i - 1);
      } else if |lock| > 1 {
        FindsTheFirst(lock[1..], e, 0);
      }
    }
  }

  lemma {:induction false} FindVersion(lock: Lock, e: Edge)
    requires Resolves(lock, e)
    ensures e.version.None? || e.version.value == Find(lock, e).value.version
  {
    if !Matches(lock[0], e) { FindVersion(lock[1..], e); }
  }

  lemma {:induction false} ExtraOf(p: Package, extras: seq<string>, o: Edge) returns (x: string)
    requires o in ExtraEdges(p, extras)
    ensures x in extras && x in p.optional && o in p.optional[x]
  {
    if extras[0] in p.optional && o in p.optional[extras[0]] {
      x := extras[0];
    } else {
      x := ExtraOf(p, extras[1..], o);
    }
  }

  lemma {:induction false} ExtraIncluded(p: Package, extras: seq<string>, x: string, o: Edge)
    requires x in extras && x in p.optional && o in p.optional[x]
    ensures o in ExtraEdges(p, extras)
  {
    if extras[0] != x { ExtraIncluded(p, extras[1..], x, o); }
  }

  /** What a request that leaves `x` out leads to stands elsewhere. */
  lemma OutsElsewhere(lock: Lock, d: Edge, x: string, o: Edge)
    requires o in Outs(lock, d) && x !in d.extras
    ensures Resolves(lock, d) && Elsewhere(Find(lock, d).value, x, o)
  {
    var p := Find(lock, d).value;
    if o !in p.deps { var y := ExtraOf(p, d.extras, o); }
  }

  /** A skipped request for `x`, which no recorded request contains: its edges are taken for edges elsewhere. */
  lemma SkippedExtra(lock: Lock, start: seq<Edge>, graph: Graph, done: set<Edge>, seen: set<Edge>, s0: Edge,
                     x: string, e: Edge)
    returns (s: Edge)
    requires Progress(lock, start, [], graph, done, seen) && s0 in seen && Resolves(lock, s0)
    requires x in s0.extras && x in Find(lock, s0).value.optional && e in Find(lock, s0).value.optional[x]
    requires forall d :: d in done && SameKey(lock, d, s0) ==> x !in d.extras
    ensures s in seen && Elsewhere(Find(lock, s0).value, x, s) && SameKey(lock, e, s)
  {
    var p := Find(lock, s0).value;
    ExtraIncluded(p, s0.extras, x, e);
    assert Covers(lock, graph, s0);
    assert Key(lock, e) in Deps(lock, s0);
    var d;
    d, s := ExplainedOut(lock, start, graph, done, seen, Key(lock, s0), Key(lock, e));
    KeyNamesPackage(lock, d, s0);
    OutsElsewhere(lock, d, x, s);
  }

  /** All edges under a skipped extra are taken for edges elsewhere, so the condition speaks of them. */
  lemma SkippedIsReplaced(lock: Lock, start: seq<Edge>, graph: Graph, done: set<Edge>, seen: set<Edge>,
                          s0: Edge, x: string, e: Edge) returns (s: Edge)
    requires Consistent(lock) && Progress(lock, start, [], graph, done, seen) && s0 in seen && Resolves(lock, s0)
    requires x in s0.extras && x in Find(lock, s0).value.optional && e in Find(lock, s0).value.optional[x]
    requires forall d :: d in done && SameKey(lock, d, s0) ==> x !in d.extras
    ensures s in seen && Replaces(lock, s, e)
  {
    var p := Find(lock, s0).value;
    assert Skippable(lock, p, x) by {
      forall a | a in p.optional[x] ensures exists b :: Elsewhere(p, x, b) && SameKey(lock, a, b) {
        var b := SkippedExtra(lock, start, graph, done, seen, s0, x, a);
      }
    }
    s := SkippedExtra(lock, start, graph, done, seen, s0, x, e);
    assert TakenFor(lock, p, x, e, s);
  }

  /** A request for `x` that was recorded has put the edges under `x` on the stack. */
  lemma RecordedExtra(lock: Lock, start: seq<Edge>, done: set<Edge>, seen: set<Edge>,
                      s0: Edge, d: Edge, x: string, e: Edge)
    requires Pending(lock, start, [], done, seen) && d in done && SameKey(lock, d, s0)
    requires x in d.extras && x in Find(lock, s0).value.optional && e in Find(lock, s0).value.optional[x]
    ensures e in seen
  {
    KeyNamesPackage(lock, d, s0);
    ExtraIncluded(Find(lock, s0).value, d.extras, x, e);
    assert e in Outs(lock, d);
  }

  lemma ExtraIsSeen(lock: Lock, start: seq<Edge>, graph: Graph, done: set<Edge>, seen: set<Edge>,
                    s0: Edge, x: string, e: Edge) returns (s: Edge)
    requires Consistent(lock) && Progress(lock, start, [], graph, done, seen) && s0 in seen && Resolves(lock, s0)
    requires x in s0.extras && x in Find(lock, s0).value.optional && e in Find(lock, s0).value.optional[x]
    ensures s in seen && Replaces(lock, s, e)
  {
    if d :| d in done && SameKey(lock, d, s0) && x in d.extras {
      RecordedExtra(lock, start, done, seen, s0, d, x, e);
      s := e;
    } else {
      s := SkippedIsReplaced(lock, start, graph, done, seen, s0, x, e);
    }
  }

  /** For what a popped edge leads to, some popped edge can stand. */
  lemma NextIsSeen(lock: Lock, start: seq<Edge>, graph: Graph, done: set<Edge>, seen: set<Edge>, s0: Edge, e: Edge)
    returns (s: Edge)
    requires Consistent(lock) && Progress(lock, start, [], graph, done, seen) && s0 in seen && e in Outs(lock, s0)
    ensures s in seen && Replaces(lock, s, e)
  {
    assert Covers(lock, graph, s0);
    var p := Find(lock, s0).value;
    if e in p.deps {
      var d :| d in done && Names(lock, d, Key(lock, s0));
      KeyNamesPackage(lock, d, s0);
      s := e;
    } else {
      var x := ExtraOf(p, s0.extras, e);
      s := ExtraIsSeen(lock, start, graph, done, seen, s0, x, e);
    }
  }

  lemma {:induction false} EveryReachedIsSeen(lock: Lock, start: seq<Edge>, graph: Graph, done: set<Edge>,
                                              seen: set<Edge>, c: Chain) returns (s: Edge)
    requires Consistent(lock) && Progress(lock, start, [], graph, done, seen) && Linked(lock, start, c)
    ensures s in seen && Replaces(lock, s, c.edge)
  {
    match c
    case First(e) => s := e;
    case Longer(prev, e) =>
      var s0 := EveryReachedIsSeen(lock, start, graph, done, seen, prev);
      s := NextIsSeen(lock, start, graph, done, seen, s0, e);
  }

  /** In a consistent lock the walk records everything reachable. */
  lemma ReachIsComplete(lock: Lock, start: seq<Edge>, graph: Graph, e: Edge)
    requires Consistent(lock) && Walk(lock, start, map[]) == Some(graph) && Reached(lock, start, e)
    ensures Covers(lock, graph, e)
  {
    var done, seen := WalkSettles(lock, start, start, map[], {}, {});
    var c :| Linked(lock, start, c) && c.edge == e;
    var s := EveryReachedIsSeen(lock, start, graph, done, seen, c);
    assert Covers(lock, graph, s);
    assert Deps(lock, e) <= Deps(lock, s);
  }

  /** A lock whose packages ask for no extras of each other is consistent. */
  lemma NoExtrasIsConsistent(lock: Lock)
    requires forall p, o :: p in lock && o in p.deps ==> o.extras == []
    requires forall p, x, o :: p in lock && x in p.optional && o in p.optional[x] ==> o.extras == []
    ensures Consistent(lock)
  {
    forall p, x, a, b | p in lock && TakenFor(lock, p, x, a, b) ensures Replaces(lock, b, a) {
      KeyNamesPackage(lock, a, b);
    }
  }

  lemma {:induction false} LinkedFromMore(lock: Lock, start: seq<Edge>, more: seq<Edge>, c: Chain)
    requires Linked(lock, start, c)
    ensures Linked(lock, start + more, c)
  {
    if c.Longer? { LinkedFromMore(lock, start, more, c.prev); }
  }

  lemma ReachedFromMore(lock: Lock, start: seq<Edge>, more: seq<Edge>, e: Edge)
    requires Reached(lock, start, e)
    ensures Reached(lock, start + more, e)
  {
    var c :| Linked(lock, start, c) && c.edge == e;
    LinkedFromMore(lock, start, more, c);
  }

  /** Scopes: in a consistent lock a package is runtime exactly when a path of runtime edges leads to it. */
  lemma RuntimeScope(lock: Lock, direct: seq<Edge>, dev: seq<Edge>, runtime: Graph, everything: Graph, k: Purl)
    requires Consistent(lock) && Walk(lock, direct, map[]) == Some(runtime)
    requires Walk(lock, direct + dev, map[]) == Some(everything)
    ensures k in runtime <==> exists e :: Reached(lock, direct, e) && Names(lock, e, k)
    ensures k in runtime ==> k in everything && runtime[k] <= everything[k]
  {
    ReachIsSound(lock, direct);
    if e :| Reached(lock, direct, e) && Names(lock, e, k) { ReachIsComplete(lock, direct, runtime, e); }
    if k in runtime {
      forall e | Reached(lock, direct, e) && Names(lock, e, k) ensures Covers(lock, everything, e) {
        ReachedFromMore(lock, direct, dev, e);
        ReachIsComplete(lock, direct + dev, everything, e);
      }
      forall q | q in runtime[k] ensures q in everything[k] {
        var e :| Reached(lock, direct, e) && Explains(lock, e, k, q);
        assert Covers(lock, everything, e);
      }
    }
  }

  // ---- where completeness fails ------------------------------------------------------------------------

  const PLAIN_A := Edge("a", None, [])
  const A_WITH_X := Edge("a", None, ["x"])
  const PLAIN_B := Edge("b", None, [])
  const B_WITH_Y := Edge("b", None, ["y"])
  const PLAIN_C := Edge("c", None, [])

  /** `a` needs `b`; its extra `x` needs `b` with the extra `y`, and only that one needs `c`. */
  const NESTED_EXTRAS: Lock := [
    Package("a", "1", [PLAIN_B], map["x" := [B_WITH_Y]]),
    Package("b", "1", [], map["y" := [PLAIN_C]]),
    Package("c", "1", [], map[])]

  lemma NestedExtrasResolve()
    ensures var l := NESTED_EXTRAS;
            && Find(l, PLAIN_A) == Find(l, A_WITH_X) == Some(l[0])
            && Find(l, PLAIN_B) == Find(l, B_WITH_Y) == Some(l[1]) && Find(l, PLAIN_C) == Some(l[2])
    ensures var l := NESTED_EXTRAS;
            && Outs(l, PLAIN_A) == [PLAIN_B] && Outs(l, A_WITH_X) == [PLAIN_B, B_WITH_Y]
            && Outs(l, PLAIN_B) == [] && Outs(l, B_WITH_Y) == [PLAIN_C]
  {
    var l := NESTED_EXTRAS;
    assert l[1..][0] == l[1] && l[1..][1..][0] == l[2];
    assert Find(l[1..][1..], PLAIN_C) == Some(l[2]);
    assert ExtraEdges(l[0], ["x"]) == [B_WITH_Y] && ExtraEdges(l[1], ["y"]) == [PLAIN_C];
  }

  lemma WalkPops(lock: Lock, rest: seq<Edge>, e: Edge, graph: Graph)
    requires Expands(lock, e)
    ensures Covers(lock, graph, e) ==> Walk(lock, rest + [e], graph) == Walk(lock, rest, graph)
    ensures !Covers(lock, graph, e) ==>
              Walk(lock, rest + [e], graph) == Walk(lock, rest + Outs(lock, e), Record(lock, graph, e))
  {
    var stack := rest + [e];
    assert stack[..|stack| - 1] == rest;
  }

  lemma NestedExtrasGraphs()
    ensures var l, a, b := NESTED_EXTRAS, Purl("a", "1"), Purl("b", "1");
            && Expands(l, PLAIN_A) && Expands(l, PLAIN_B) && Expands(l, A_WITH_X)
            && Key(l, PLAIN_A) == Key(l, A_WITH_X) == a && Key(l, PLAIN_B) == b
            && Deps(l, PLAIN_A) == Deps(l, A_WITH_X) == {b} && Deps(l, PLAIN_B) == {}
  {
    NestedExtrasResolve();
  }

  lemma NestedExtrasFirst(g: Graph)
    requires Expands(NESTED_EXTRAS, PLAIN_A) && g == Record(NESTED_EXTRAS, map[], PLAIN_A)
    ensures g.Keys == {Purl("a", "1")} && g[Purl("a", "1")] == {Purl("b", "1")}
    ensures Walk(NESTED_EXTRAS, [A_WITH_X, PLAIN_A], map[]) == Walk(NESTED_EXTRAS, [A_WITH_X, PLAIN_B], g)
  {
    NestedExtrasGraphs();
    assert Outs(NESTED_EXTRAS, PLAIN_A) == [PLAIN_B] by { NestedExtrasResolve(); }
    WalkPops(NESTED_EXTRAS, [A_WITH_X], PLAIN_A, map[]);
    assert [A_WITH_X] + [PLAIN_A] == [A_WITH_X, PLAIN_A];
  }

  lemma NestedExtrasSecond(g: Graph, g': Graph)
    requires g.Keys == {Purl("a", "1")} && g[Purl("a", "1")] == {Purl("b", "1")}
    requires Expands(NESTED_EXTRAS, PLAIN_B) && g' == Record(NESTED_EXTRAS, g, PLAIN_B)
    ensures g'.Keys == {Purl("a", "1"), Purl("b", "1")} && g'[Purl("a", "1")] == {Purl("b", "1")}
    ensures Walk(NESTED_EXTRAS, [A_WITH_X, PLAIN_B], g) == Walk(NESTED_EXTRAS, [A_WITH_X], g')
  {
    NestedExtrasGraphs();
    assert Outs(NESTED_EXTRAS, PLAIN_B) == [] by { NestedExtrasResolve(); }
    WalkPops(NESTED_EXTRAS, [A_WITH_X], PLAIN_B, g);
    assert [A_WITH_X] + [] == [A_WITH_X];
  }

  /** The walk records `a` and `b` and then skips `a` with `x`, because it needs only `b` as well. */
  lemma NestedExtrasSkipped() returns (graph: Graph)
    ensures Walk(NESTED_EXTRAS, [A_WITH_X, PLAIN_A], map[]) == Some(graph)
    ensures graph.Keys == {Purl("a", "1"), Purl("b", "1")}
  {
    NestedExtrasGraphs();
    var g := Record(NESTED_EXTRAS, map[], PLAIN_A);
    graph := Record(NESTED_EXTRAS, g, PLAIN_B);
    NestedExtrasFirst(g);
    NestedExtrasSecond(g, graph);
    WalkPops(NESTED_EXTRAS, [], A_WITH_X, graph);
    assert [] + [A_WITH_X] == [A_WITH_X];
  }

  lemma NestedExtrasPath()
    ensures Reached(NESTED_EXTRAS, [A_WITH_X, PLAIN_A], PLAIN_C)
  {
    NestedExtrasResolve();
    var c := Longer(Longer(First(A_WITH_X), B_WITH_Y), PLAIN_C);
    assert Linked(NESTED_EXTRAS, [A_WITH_X, PLAIN_A], c.prev);
    assert Linked(NESTED_EXTRAS, [A_WITH_X, PLAIN_A], c);
  }

  /** So `c` is reachable and missing: completeness needs a condition on the lock. */
  lemma NestedExtrasAreMissed()
    ensures var l, start := NESTED_EXTRAS, [A_WITH_X, PLAIN_A];
            && Reached(l, start, PLAIN_C) && Walk(l, start, map[]).Some?
            && !Covers(l, Walk(l, start, map[]).value, PLAIN_C)
  {
    var graph := NestedExtrasSkipped();
    assert Reached(NESTED_EXTRAS, [A_WITH_X, PLAIN_A], PLAIN_C) by { NestedExtrasPath(); }
    WithoutC(graph);
  }

  lemma WithoutC(graph: Graph)
    requires graph.Keys == {Purl("a", "1"), Purl("b", "1")}
    ensures !Covers(NESTED_EXTRAS, graph, PLAIN_C)
  {
    NestedExtrasResolve();
  }
}
