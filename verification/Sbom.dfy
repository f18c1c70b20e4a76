/** The dependency analyses behind the desktop's bill of materials: which packages a
  * binary links, which of them only at build time, and how an advisory's crate is reached.
  */
module Sbom {

  import opened Wrappers

  datatype Package = Package(id: string, name: string, version: string, source: Option<string>, procMacro: bool)

  /** A dependency's kinds; `None` is the normal kind, as opposed to dev and build. */
  datatype Dep = Dep(pkg: string, kinds: seq<Option<string>>)

  datatype Node = Node(id: string, deps: seq<Dep>)

  datatype Metadata = Metadata(packages: seq<Package>, nodes: seq<Node>)

  /** The package with an id: of several, the last listed. */
  function Lookup(packages: seq<Package>, id: string): Option<Package> {
    if packages == [] then None
    else if packages[|packages| - 1].id == id then Some(packages[|packages| - 1])
    else Lookup(packages[..|packages| - 1], id)
  }

  function DepsOf(nodes: seq<Node>, id: string): seq<Dep> {
    if nodes == [] then []
    else if nodes[|nodes| - 1].id == id then nodes[|nodes| - 1].deps
    else DepsOf(nodes[..|nodes| - 1], id)
  }

  predicate Normal(dep: Dep) {
    None in dep.kinds
  }

  predicate Edge(m: Metadata, a: string, b: string) {
    exists dep | dep in DepsOf(m.nodes, a) :: dep.pkg == b && Normal(dep)
  }

  /** The ids of the workspace packages of that name. */
  predicate Root(m: Metadata, name: string, id: string) {
    exists p | p in m.packages :: p.id == id && p.name == name && p.source.None?
  }

  predicate Macro(m: Metadata, id: string) {
    Lookup(m.packages, id).Some? && Lookup(m.packages, id).value.procMacro
  }

  /** Whether a walk must not pass `id`: a procedural macro, if those are left out. */
  predicate Barred(m: Metadata, bar: bool, id: string) {
    bar && Macro(m, id)
  }

  /** A chain of normal dependencies from a root of that name. */
  ghost predicate Chain(m: Metadata, name: string, bar: bool, p: seq<string>) {
    && p != []
    && Root(m, name, p[0])
    && (forall i | 0 <= i < |p| - 1 :: Edge(m, p[i], p[i + 1]))
    && (forall i | 0 <= i < |p| :: !Barred(m, bar, p[i]))
  }

  ghost predicate Reached(m: Metadata, name: string, bar: bool, id: string) {
    exists p :: Chain(m, name, bar, p) && p[|p| - 1] == id
  }

  lemma Extend(m: Metadata, name: string, bar: bool, a: string, b: string)
    requires Reached(m, name, bar, a) && Edge(m, a, b) && !Barred(m, bar, b)
    ensures Reached(m, name, bar, b)
  {
    var p :| Chain(m, name, bar, p) && p[|p| - 1] == a;
    assert Chain(m, name, bar, p + [b]);
    assert (p + [b])[|p + [b]| - 1] == b;
  }

  lemma RootReached(m: Metadata, name: string, bar: bool, a: string)
    requires Root(m, name, a) && !Barred(m, bar, a)
    ensures Reached(m, name, bar, a)
  {
    assert Chain(m, name, bar, [a]);
  }

  /** Every id a walk can meet. */
  function Universe(m: Metadata): set<string> {
    (set p | p in m.packages :: p.id) + (set n | n in m.nodes :: n.id) + (set n, d | n in m.nodes && d in n.deps :: d.pkg)
  }

  lemma {:induction false} DepsAreListed(nodes: seq<Node>, id: string)
    ensures forall d | d in DepsOf(nodes, id) :: exists n | n in nodes :: d in n.deps
  {
    if nodes != [] && nodes[|nodes| - 1].id != id {
      DepsAreListed(nodes[..|nodes| - 1], id);
      forall d | d in DepsOf(nodes, id)
        ensures exists n | n in nodes :: d in n.deps
      {
        assert d in DepsOf(nodes[..|nodes| - 1], id);
        var n :| n in nodes[..|nodes| - 1] && d in n.deps;
        assert n in nodes;
      }
    } else if nodes != [] {
      assert nodes[|nodes| - 1] in nodes;
    }
  }

  lemma {:induction false} LookupListed(packages: seq<Package>, id: string)
    ensures Lookup(packages, id).Some? ==> Lookup(packages, id).value in packages && Lookup(packages, id).value.id == id
    ensures Lookup(packages, id).None? ==> forall p | p in packages :: p.id != id
  {
    if packages != [] {
      LookupListed(packages[..|packages| - 1], id);
      assert packages == packages[..|packages| - 1] + [packages[|packages| - 1]];
    }
  }

  /** The ids of the normal dependencies of a list, in its order. */
  function NormalIds(deps: seq<Dep>): seq<string> {
    if deps == [] then []
    else NormalIds(deps[..|deps| - 1]) + if Normal(deps[|deps| - 1]) then [deps[|deps| - 1].pkg] else []
  }

  /** The ids `id` depends on normally, in the order listed. */
  method Targets(m: Metadata, id: string) returns (targets: seq<string>)
    ensures targets == NormalIds(DepsOf(m.nodes, id))
    ensures forall b :: b in targets <==> Edge(m, id, b)
    ensures forall b | b in targets :: b in Universe(m)
  {
    var deps := DepsOf(m.nodes, id);
    DepsAreListed(m.nodes, id);
    targets := [];
    for i := 0 to |deps|
      invariant targets == NormalIds(deps[..i])
      invariant forall b :: b in targets <==> exists j | 0 <= j < i :: deps[j].pkg == b && Normal(deps[j])
      invariant forall b | b in targets :: b in Universe(m)
    {
      assert deps[..i + 1][..i] == deps[..i];
      if Normal(deps[i]) {
        assert deps[i] in deps;
        targets := targets + [deps[i].pkg];
      }
    }
    assert deps[..|deps|] == deps;
  }

  /** The ids of the first-party packages of that name, in the order listed. */
  function RootIds(packages: seq<Package>, name: string): seq<string> {
    if packages == [] then []
    else
      var p := packages[|packages| - 1];
      RootIds(packages[..|packages| - 1], name) + if p.name == name && p.source.None? then [p.id] else []
  }

  /** The workspace packages of that name, in the order listed. */
  method Roots(m: Metadata, name: string) returns (roots: seq<string>)
    ensures roots == RootIds(m.packages, name)
    ensures forall id :: id in roots <==> Root(m, name, id)
    ensures forall id | id in roots :: id in Universe(m)
  {
    roots := [];
    for i := 0 to |m.packages|
      invariant roots == RootIds(m.packages[..i], name)
      invariant forall id :: id in roots <==> exists j | 0 <= j < i :: m.packages[j].id == id && m.packages[j].name == name && m.packages[j].source.None?
      invariant forall id | id in roots :: id in Universe(m)
    {
      var p := m.packages[i];
      assert m.packages[..i + 1][..i] == m.packages[..i];
      if p.name == name && p.source.None? {
        assert p in m.packages;
        roots := roots + [p.id];
      }
    }
    assert m.packages[..|m.packages|] == m.packages;
  }

  // ---------------------------------------------------------------- what the metadata says

  /** The last package listed with an id is at `i`. */
  predicate LastPackage(packages: seq<Package>, id: string, i: int) {
    0 <= i < |packages| && packages[i].id == id && forall j | i < j < |packages| :: packages[j].id != id
  }

  predicate LastNode(nodes: seq<Node>, id: string, i: int) {
    0 <= i < |nodes| && nodes[i].id == id && forall j | i < j < |nodes| :: nodes[j].id != id
  }

  /** An id stands for the last package and the last node listed with it. */
  lemma {:induction false} TheLastCounts(packages: seq<Package>, nodes: seq<Node>, id: string)
    ensures forall i | LastPackage(packages, id, i) :: Lookup(packages, id) == Some(packages[i])
    ensures forall i | LastNode(nodes, id, i) :: DepsOf(nodes, id) == nodes[i].deps
    ensures (forall j | 0 <= j < |nodes| :: nodes[j].id != id) ==> DepsOf(nodes, id) == []
    decreases |packages| + |nodes|
  {
    if packages != [] && packages[|packages| - 1].id != id {
      TheLastCounts(packages[..|packages| - 1], nodes, id);
      forall i | LastPackage(packages, id, i)
        ensures Lookup(packages, id) == Some(packages[i])
      {
        assert LastPackage(packages[..|packages| - 1], id, i);
      }
    }
    if nodes != [] && nodes[|nodes| - 1].id != id {
      TheLastCounts(packages, nodes[..|nodes| - 1], id);
      forall i | LastNode(nodes, id, i)
        ensures DepsOf(nodes, id) == nodes[i].deps
      {
        assert LastNode(nodes[..|nodes| - 1], id, i);
      }
    }
  }

  /** A dependency counts if its kind is missing once, which is how the normal kind is
    * written; a package is a root if it has the name and no source. */
  lemma OneByOne(dep: Dep, p: Package, name: string)
    ensures NormalIds([dep]) == if exists i :: 0 <= i < |dep.kinds| && dep.kinds[i].None? then [dep.pkg] else []
    ensures RootIds([p], name) == if p.name == name && p.source.None? then [p.id] else []
  {
    assert [dep][..0] == [] && [p][..0] == [];
  }

  /** Both lists are in the order of what they are of. */
  lemma {:induction false} ListsJoin(a: seq<Dep>, b: seq<Dep>, p: seq<Package>, q: seq<Package>, name: string)
    ensures NormalIds(a + b) == NormalIds(a) + NormalIds(b)
    ensures RootIds(p + q, name) == RootIds(p, name) + RootIds(q, name)
    decreases |b| + |q|
  {
    if b != [] {
      assert (a + b)[..|a + b| - 1] == a + b[..|b| - 1];
      ListsJoin(a, b[..|b| - 1], p, q, name);
    } else {
      assert a + b == a;
    }
    if q != [] {
      assert (p + q)[..|p + q| - 1] == p + q[..|q| - 1];
      ListsJoin(a, b, p, q[..|q| - 1], name);
    } else {
      assert p + q == p;
    }
  }

  /** One id depends on another, is a root or is a procedural macro in these terms too. */
  lemma EdgesRootsMacros(m: Metadata, a: string, b: string, name: string, i: int)
    ensures Edge(m, a, b) <==> b in NormalIds(DepsOf(m.nodes, a))
    ensures Root(m, name, a) <==> a in RootIds(m.packages, name)
    ensures LastPackage(m.packages, a, i) ==> (Macro(m, a) <==> m.packages[i].procMacro)
    ensures (forall k | 0 <= k < |m.packages| :: m.packages[k].id != a) ==> !Macro(m, a)
  {
    NormalIdsAre(DepsOf(m.nodes, a), b);
    RootIdsAre(m.packages, name, a);
    TheLastCounts(m.packages, m.nodes, a);
    LookupListed(m.packages, a);
  }

  lemma {:induction false} NormalIdsAre(deps: seq<Dep>, b: string)
    ensures b in NormalIds(deps) <==> exists dep | dep in deps :: dep.pkg == b && Normal(dep)
  {
    if deps != [] {
      NormalIdsAre(deps[..|deps| - 1], b);
      assert deps == deps[..|deps| - 1] + [deps[|deps| - 1]];
    }
  }

  lemma {:induction false} RootIdsAre(packages: seq<Package>, name: string, id: string)
    ensures id in RootIds(packages, name) <==> exists p | p in packages :: p.id == id && p.name == name && p.source.None?
  {
    if packages != [] {
      RootIdsAre(packages[..|packages| - 1], name, id);
      assert packages == packages[..|packages| - 1] + [packages[|packages| - 1]];
    }
  }

  /** Whatever a walk started from or stepped to is visited, waiting, or barred. */
  ghost predicate Closing(m: Metadata, name: string, bar: bool, seen: set<string>, stack: seq<string>) {
    && (forall a | Root(m, name, a) :: a in seen || a in stack || Barred(m, bar, a))
    && (forall a, b | a in seen && Edge(m, a, b) :: b in seen || b in stack || Barred(m, bar, b))
  }

  /** Whatever waits would be reached if it is not barred itself. */
  ghost predicate Next(m: Metadata, name: string, bar: bool, id: string) {
    Barred(m, bar, id) || Reached(m, name, bar, id)
  }

  lemma {:induction false} ClosedHoldsChains(m: Metadata, name: string, bar: bool, seen: set<string>, p: seq<string>, i: nat)
    requires Closing(m, name, bar, seen, []) && Chain(m, name, bar, p) && i < |p|
    ensures p[i] in seen
  {
    if i > 0 {
      ClosedHoldsChains(m, name, bar, seen, p, i - 1);
      assert Edge(m, p[i - 1], p[i - 1 + 1]);
    }
  }

  lemma ClosedHoldsAll(m: Metadata, name: string, bar: bool, seen: set<string>)
    requires Closing(m, name, bar, seen, [])
    ensures forall id | Reached(m, name, bar, id) :: id in seen
  {
    forall id | Reached(m, name, bar, id)
      ensures id in seen
    {
      var p :| Chain(m, name, bar, p) && p[|p| - 1] == id;
      ClosedHoldsChains(m, name, bar, seen, p, |p| - 1);
    }
  }

  lemma RootsNext(m: Metadata, name: string, bar: bool, roots: seq<string>)
    requires forall id | id in roots :: Root(m, name, id)
    ensures forall id | id in roots :: Next(m, name, bar, id)
  {
    forall a | a in roots
      ensures Next(m, name, bar, a)
    {
      if !Barred(m, bar, a) {
        RootReached(m, name, bar, a);
      }
    }
  }

  lemma TargetsNext(m: Metadata, name: string, bar: bool, current: string, targets: seq<string>)
    requires Reached(m, name, bar, current) && forall b | b in targets :: Edge(m, current, b)
    ensures forall b | b in targets :: Next(m, name, bar, b)
  {
    forall b | b in targets
      ensures Next(m, name, bar, b)
    {
      if !Barred(m, bar, b) {
        Extend(m, name, bar, current, b);
      }
    }
  }

  lemma SkipKeeps(m: Metadata, name: string, bar: bool, seen: set<string>, stack: seq<string>, current: string)
    requires Closing(m, name, bar, seen, stack + [current])
    requires current in seen || Barred(m, bar, current)
    ensures Closing(m, name, bar, seen, stack)
  {
    assert forall a | a in stack + [current] :: a in stack || a == current;
  }

  lemma VisitKeeps(m: Metadata, name: string, bar: bool, seen: set<string>, stack: seq<string>, current: string, targets: seq<string>)
    requires Closing(m, name, bar, seen, stack + [current])
    requires forall b :: b in targets <==> Edge(m, current, b)
    ensures Closing(m, name, bar, seen + {current}, stack + targets)
  {
    assert forall a | a in stack + [current] :: a in stack || a == current;
    assert forall a | a in stack || a in targets :: a in stack + targets;
  }

  /** The depth-first walk of `linked` and, with procedural macros barred, of
    * `runtime_linked`: it visits exactly what a chain reaches. */
  method Walk(m: Metadata, name: string, bar: bool) returns (seen: set<string>)
    ensures forall id :: id in seen <==> Reached(m, name, bar, id)
  {
    var stack := Roots(m, name);
    seen := {};
    RootsNext(m, name, bar, stack);
    while stack != []
      invariant seen <= Universe(m) && forall id | id in stack :: id in Universe(m)
      invariant forall id | id in seen :: Reached(m, name, bar, id)
      invariant forall id | id in stack :: Next(m, name, bar, id)
      invariant Closing(m, name, bar, seen, stack)
      decreases Universe(m) - seen, |stack|
    {
      var current := stack[|stack| - 1];
      ghost var before := stack;
      stack := stack[..|stack| - 1];
      assert before == stack + [current];
      assert current in before;
      if current in seen || Barred(m, bar, current) {
        SkipKeeps(m, name, bar, seen, stack, current);
        continue;
      }
      var targets := Targets(m, current);
      VisitKeeps(m, name, bar, seen, stack, current, targets);
      TargetsNext(m, name, bar, current, targets);
      seen := seen + {current};
      stack := stack + targets;
    }
    ClosedHoldsAll(m, name, bar, seen);
  }

  /** `pkg` is a package the binary links. */
  ghost predicate Links(m: Metadata, name: string, pkg: Package) {
    Reached(m, name, false, pkg.id) && Lookup(m.packages, pkg.id) == Some(pkg)
  }

  /** The packages the binary links, without the order they are listed in. */
  method Linked(m: Metadata, name: string) returns (linked: set<Package>)
    ensures forall pkg :: pkg in linked <==> Links(m, name, pkg)
  {
    var seen := Walk(m, name, false);
    linked := set p | p in m.packages && p.id in seen && Lookup(m.packages, p.id) == Some(p);
    forall pkg | Links(m, name, pkg)
      ensures pkg in linked
    {
      LookupListed(m.packages, pkg.id);
    }
  }

  // ---------------------------------------------------------------- shortest paths

  /** A graph as the search sees it: where it starts, its edges, and the ids that can be
    * looked up. */
  datatype Net = Net(roots: set<string>, edges: set<(string, string)>, known: set<string>)

  ghost predicate Walkable(net: Net, p: seq<string>) {
    && p != []
    && p[0] in net.roots
    && forall i | 0 <= i < |p| - 1 :: (p[i], p[i + 1]) in net.edges
  }

  ghost predicate Farther(net: Net, id: string, length: nat) {
    forall p | Walkable(net, p) && p[|p| - 1] == id :: length <= |p|
  }

  /** The history of a search: every id enqueued so far, oldest first, where each was
    * enqueued first, and how deep it lies. */
  datatype Hunt = Hunt(order: seq<string>, at: map<string, nat>, depth: map<string, nat>)

  type Parents = map<string, Option<string>>

  /** `id` is a root at depth 0, or one deeper than the known `up` with an edge to it. */
  predicate Placed(net: Net, id: string, up: Option<string>, depth: map<string, nat>) {
    && id in depth
    && match up
       case None => id in net.roots && depth[id] == 0
       case Some(a) => a in depth && (a, id) in net.edges && depth[id] == depth[a] + 1 && a in net.known
  }

  /** The parents form a forest rooted at the roots, whose depths `depth` gives. */
  ghost predicate Forest(net: Net, parent: Parents, depth: map<string, nat>) {
    && parent.Keys == depth.Keys
    && (forall id | id in net.roots :: id in depth && depth[id] == 0)
    && (forall id {:trigger parent[id]} | id in parent :: Placed(net, id, parent[id], depth))
  }

  ghost predicate Indexed(h: Hunt) {
    && h.at.Keys == h.depth.Keys
    && (forall i | 0 <= i < |h.order| :: h.order[i] in h.depth)
    && (forall id {:trigger h.at[id]} | id in h.at :: h.at[id] < |h.order| && h.order[h.at[id]] == id)
  }

  ghost predicate Deepening(h: Hunt) {
    && Indexed(h)
    && (forall i, j | 0 <= i <= j < |h.order| :: h.depth[h.order[i]] <= h.depth[h.order[j]])
  }

  /** The first `done` of the order are expanded, and the rest span at most two depths. */
  ghost predicate Frontier(net: Net, h: Hunt, done: nat) {
    && done <= |h.order|
    && Indexed(h)
    && (done < |h.order| ==> h.depth[h.order[|h.order| - 1]] <= h.depth[h.order[done]] + 1)
    && (forall i, b | 0 <= i < done && (h.order[i], b) in net.edges :: b in h.depth && h.depth[b] <= h.depth[h.order[i]] + 1)
  }

  ghost predicate Searching(net: Net, h: Hunt, done: nat, parent: Parents) {
    Forest(net, parent, h.depth) && Deepening(h) && Frontier(net, h, done)
  }

  /** The search before its first step. */
  ghost function Starting(roots: seq<string>): (h: Hunt)
    ensures Deepening(h) && h.order == roots
    ensures forall id | id in h.depth :: id in roots && h.depth[id] == 0
  {
    Hunt(roots, map id | id in roots :: First(roots, id), map id | id in roots :: 0)
  }

  ghost function First(ids: seq<string>, id: string): (i: nat)
    requires id in ids
    ensures i < |ids| && ids[i] == id
  {
    if ids[0] == id then 0 else 1 + First(ids[1..], id)
  }

  lemma {:induction false} DepthsBound(net: Net, h: Hunt, done: nat, parent: Parents, p: seq<string>, i: nat)
    requires Searching(net, h, done, parent)
    requires Walkable(net, p) && i < |p|
    requires forall j | 0 <= j < i :: p[j] in h.at && h.at[p[j]] < done
    ensures p[i] in h.depth && h.depth[p[i]] <= i
  {
    if i > 0 {
      DepthsBound(net, h, done, parent, p, i - 1);
      assert (p[i - 1], p[i - 1 + 1]) in net.edges;
      assert (h.order[h.at[p[i - 1]]], p[i]) in net.edges;
    }
  }

  /** An id not expanded yet is no closer than the next one in the queue. */
  lemma NoShortcut(net: Net, h: Hunt, done: nat, parent: Parents, id: string)
    requires Searching(net, h, done, parent)
    requires done < |h.order| && (id in h.at ==> done <= h.at[id])
    ensures Farther(net, id, h.depth[h.order[done]] + 1)
  {
    forall p | Walkable(net, p) && p[|p| - 1] == id
      ensures h.depth[h.order[done]] + 1 <= |p|
    {
      var i := FirstOutside(h.at, done, p);
      DepthsBound(net, h, done, parent, p, i);
      WaitingIsDeeper(h, done, p[i]);
    }
  }

  lemma FirstOutside(at: map<string, nat>, done: nat, p: seq<string>) returns (i: nat)
    requires p != [] && (p[|p| - 1] in at ==> done <= at[p[|p| - 1]])
    ensures i < |p| && (p[i] in at ==> done <= at[p[i]]) && forall j | 0 <= j < i :: p[j] in at && at[p[j]] < done
  {
    i := 0;
    while p[i] in at && at[p[i]] < done
      invariant i < |p| && forall j | 0 <= j < i :: p[j] in at && at[p[j]] < done
      decreases |p| - i
    {
      i := i + 1;
    }
  }

  lemma WaitingIsDeeper(h: Hunt, done: nat, id: string)
    requires Deepening(h) && done < |h.order|
    requires id in h.at && done <= h.at[id]
    ensures h.depth[h.order[done]] <= h.depth[id]
  {
    assert h.depth[h.order[done]] <= h.depth[h.order[h.at[id]]];
  }

  ghost function Queued(h: Hunt, a: string, b: string): Hunt
    requires a in h.depth
  {
    Hunt(h.order + [b], h.at[b := |h.order|], h.depth[b := h.depth[a] + 1])
  }

  lemma QueuedForest(net: Net, parent: Parents, h: Hunt, a: string, b: string)
    requires Forest(net, parent, h.depth)
    requires a in h.depth && (a, b) in net.edges && b !in parent && a in net.known
    ensures Forest(net, parent[b := Some(a)], Queued(h, a, b).depth)
  {
    var parent', depth' := parent[b := Some(a)], Queued(h, a, b).depth;
    forall id | id in parent'
      ensures Placed(net, id, parent'[id], depth')
    {
      if id in parent {
        assert Placed(net, id, parent[id], h.depth);
      }
    }
  }

  lemma QueuedIsDeepest(h: Hunt, a: string, b: string)
    requires Deepening(h) && h.order != [] && a in h.depth && b !in h.depth
    requires h.depth[h.order[|h.order| - 1]] <= h.depth[a] + 1
    ensures Deepening(Queued(h, a, b))
  {
    var g := Queued(h, a, b);
    forall i | 0 <= i < |h.order|
      ensures g.order[i] == h.order[i] && g.depth[h.order[i]] == h.depth[h.order[i]] <= g.depth[b]
    {
      assert h.depth[h.order[i]] <= h.depth[h.order[|h.order| - 1]];
    }
    assert g.order[|h.order|] == b;
  }

  lemma QueuedFrontier(net: Net, h: Hunt, done: nat, b: string)
    requires Deepening(h) && Frontier(net, h, done)
    requires done < |h.order| && b !in h.depth
    ensures var g := Queued(h, h.order[done], b); Deepening(g) && Frontier(net, g, done)
  {
    QueuedIsDeepest(h, h.order[done], b);
    var g := Queued(h, h.order[done], b);
    assert g.order[|h.order|] == b && g.order[done] == h.order[done];
    forall i, c | 0 <= i < done && (g.order[i], c) in net.edges
      ensures c in g.depth && g.depth[c] <= g.depth[g.order[i]] + 1
    {
      assert g.order[i] == h.order[i] && (h.order[i], c) in net.edges;
    }
  }

  /** `g` carries on from `h`, and `queue` is what waits behind the id being expanded. */
  ghost predicate Carries(h: Hunt, g: Hunt, done: nat, queue: seq<string>) {
    done < |h.order| <= |g.order| && g.order[..|h.order|] == h.order && queue == g.order[done + 1..]
  }

  /** The first `i` targets of the id being expanded are marked, one deeper at most. */
  ghost predicate Covered(h: Hunt, targets: seq<string>, i: nat, limit: nat) {
    i <= |targets| && forall j | 0 <= j < i :: targets[j] in h.depth && h.depth[targets[j]] <= limit
  }

  lemma QueuedCarries(h: Hunt, g: Hunt, done: nat, queue: seq<string>, a: string, b: string)
    requires Carries(h, g, done, queue) && a in g.depth && b !in g.depth
    ensures Carries(h, Queued(g, a, b), done, queue + [b])
    ensures Queued(g, a, b).order[done] == g.order[done] && Queued(g, a, b).depth[a] == g.depth[a]
  {
    assert (g.order + [b])[..|h.order|] == g.order[..|h.order|];
    assert (g.order + [b])[done + 1..] == g.order[done + 1..] + [b];
  }

  lemma QueuedCovers(h: Hunt, targets: seq<string>, i: nat, a: string, b: string)
    requires a in h.depth && b !in h.depth && Covered(h, targets, i, h.depth[a] + 1)
    requires i < |targets| && targets[i] == b
    ensures Covered(Queued(h, a, b), targets, i + 1, h.depth[a] + 1)
  {
  }

  lemma MarkedCovers(h: Hunt, targets: seq<string>, i: nat, done: nat)
    requires Deepening(h) && done < |h.order| && h.depth[h.order[|h.order| - 1]] <= h.depth[h.order[done]] + 1
    requires i < |targets| && targets[i] in h.depth && Covered(h, targets, i, h.depth[h.order[done]] + 1)
    ensures Covered(h, targets, i + 1, h.depth[h.order[done]] + 1)
  {
    assert h.depth[h.order[h.at[targets[i]]]] <= h.depth[h.order[|h.order| - 1]];
  }

  /** Once all targets of the oldest waiting id are queued, it is expanded. */
  lemma Expanded(net: Net, h: Hunt, done: nat, targets: seq<string>)
    requires Deepening(h) && Frontier(net, h, done) && done < |h.order|
    requires forall b | (h.order[done], b) in net.edges :: b in targets
    requires Covered(h, targets, |targets|, h.depth[h.order[done]] + 1)
    ensures Frontier(net, h, done + 1)
  {
    forall b | (h.order[done], b) in net.edges
      ensures b in h.depth && h.depth[b] <= h.depth[h.order[done]] + 1
    {
      var j :| 0 <= j < |targets| && targets[j] == b;
    }
    assert done + 1 < |h.order| ==> h.depth[h.order[done]] <= h.depth[h.order[done + 1]];
  }

  ghost predicate Marks(marked: Parents, parent: Parents, targets: seq<string>, before: seq<string>, queue: seq<string>) {
    && marked.Keys <= parent.Keys && (forall b | b in parent :: b in marked || b in targets)
    && (parent.Keys == marked.Keys ==> queue == before)
  }

  lemma MarkingMarks(marked: Parents, parent: Parents, targets: seq<string>, before: seq<string>, queue: seq<string>, b: string, up: Option<string>)
    requires Marks(marked, parent, targets, before, queue)
    requires b in targets && b !in parent
    ensures Marks(marked, parent[b := up], targets, before, queue + [b])
  {
    assert b in parent[b := up].Keys && b !in marked.Keys;
  }

  /** Marks the targets of the id being expanded that are new, and queues them. */
  method Expand(ghost net: Net, current: string, targets: seq<string>, before: seq<string>, marked: Parents, ghost h: Hunt, ghost done: nat)
    returns (queue: seq<string>, parent: Parents, ghost g: Hunt)
    requires Searching(net, h, done, marked)
    requires Carries(h, h, done, before) && h.order[done] == current
    requires current in net.known
    requires forall b :: b in targets <==> (current, b) in net.edges
    ensures Searching(net, g, done + 1, parent)
    ensures Carries(h, g, done, queue)
    ensures Marks(marked, parent, targets, before, queue)
  {
    queue, parent, g := before, marked, h;
    var i := 0;
    ghost var limit := h.depth[current] + 1;
    while i < |targets|
      invariant 0 <= i <= |targets|
      invariant Forest(net, parent, g.depth)
      invariant Deepening(g)
      invariant Frontier(net, g, done)
      invariant Carries(h, g, done, queue)
      invariant g.order[done] == current && g.depth[current] + 1 == limit
      invariant Marks(marked, parent, targets, before, queue)
      invariant Covered(g, targets, i, limit)
    {
      var b := targets[i];
      if b !in parent {
        MarkingMarks(marked, parent, targets, before, queue, b, Some(current));
        QueuedForest(net, parent, g, current, b);
        QueuedFrontier(net, g, done, b);
        QueuedCarries(h, g, done, queue, current, b);
        QueuedCovers(g, targets, i, current, b);
        parent := parent[b := Some(current)];
        queue := queue + [b];
        g := Queued(g, current, b);
      } else {
        MarkedCovers(g, targets, i, done);
      }
      i := i + 1;
    }
    Expanded(net, g, done, targets);
  }

  /** Every id marked is the end of a chain as long as its depth says. */
  lemma {:induction false} ChainTo(net: Net, parent: Parents, depth: map<string, nat>, id: string) returns (p: seq<string>)
    requires Forest(net, parent, depth) && id in depth
    ensures Walkable(net, p) && p[|p| - 1] == id && |p| == depth[id] + 1
    decreases depth[id]
  {
    assert id in parent && Placed(net, id, parent[id], depth);
    if parent[id].None? {
      p := [id];
    } else {
      p := ChainTo(net, parent, depth, parent[id].value);
      p := p + [id];
    }
  }

  lemma {:induction false} Exhausted(net: Net, h: Hunt, parent: Parents, p: seq<string>, i: nat)
    requires Searching(net, h, |h.order|, parent)
    requires Walkable(net, p) && i < |p|
    ensures p[i] in h.at
  {
    if i > 0 {
      Exhausted(net, h, parent, p, i - 1);
      assert (p[i - 1], p[i - 1 + 1]) in net.edges;
      assert (h.order[h.at[p[i - 1]]], p[i]) in net.edges;
    }
  }

  /** A path's packages as `name@version`, no path, or the lookup of an id no package has. */
  datatype Search = Found(path: seq<(string, string)>) | NoPath | UnknownId(id: string)

  predicate Known(m: Metadata, id: string) {
    Lookup(m.packages, id).Some?
  }

  function Label(m: Metadata, id: string): (string, string)
    requires Known(m, id)
  {
    (Lookup(m.packages, id).value.name, Lookup(m.packages, id).value.version)
  }

  predicate Named(m: Metadata, id: string, wanted: string) {
    Known(m, id) && Lookup(m.packages, id).value.name == wanted
  }

  /** `path` names the packages of the chain `p`, link by link. */
  ghost predicate Names(m: Metadata, p: seq<string>, path: seq<(string, string)>) {
    && |path| == |p|
    && forall i | 0 <= i < |p| :: Known(m, p[i]) && path[i] == Label(m, p[i])
  }

  /** No chain to `id` has fewer than `length` packages. */
  ghost predicate AtLeast(m: Metadata, name: string, id: string, length: nat) {
    forall p | Chain(m, name, false, p) && p[|p| - 1] == id :: length <= |p|
  }

  /** The net of a metadata file. */
  ghost function NetOf(m: Metadata, name: string): (net: Net)
    ensures forall id :: id in net.roots <==> Root(m, name, id)
    ensures forall id :: id in net.known <==> Known(m, id)
    ensures forall a, b :: (a, b) in net.edges <==> Edge(m, a, b)
  {
    var u := Universe(m);
    EdgesAreInside(m);
    assert forall id | Known(m, id) :: id in u by {
      forall id | Known(m, id)
        ensures id in u
      {
        LookupListed(m.packages, id);
      }
    }
    Net(set id | id in u && Root(m, name, id), set a, b | a in u && b in u && Edge(m, a, b) :: (a, b), set id | id in u && Known(m, id))
  }

  lemma {:induction false} NoDepsUnlisted(nodes: seq<Node>, id: string)
    requires DepsOf(nodes, id) != []
    ensures exists n | n in nodes :: n.id == id
  {
    var last := |nodes| - 1;
    if nodes[last].id == id {
      assert nodes[last] in nodes;
    } else {
      NoDepsUnlisted(nodes[..last], id);
      var n :| n in nodes[..last] && n.id == id;
      assert n in nodes;
    }
  }

  lemma EdgesAreInside(m: Metadata)
    ensures forall a, b | Edge(m, a, b) :: a in Universe(m) && b in Universe(m)
  {
    forall a, b | Edge(m, a, b)
      ensures a in Universe(m) && b in Universe(m)
    {
      NoDepsUnlisted(m.nodes, a);
      DepsAreListed(m.nodes, a);
    }
  }

  lemma SameChains(m: Metadata, name: string, p: seq<string>)
    ensures Chain(m, name, false, p) <==> Walkable(NetOf(m, name), p)
  {
  }

  lemma FartherIsAtLeast(m: Metadata, name: string, id: string, length: nat)
    requires Farther(NetOf(m, name), id, length)
    ensures AtLeast(m, name, id, length)
  {
    forall p | Chain(m, name, false, p) && p[|p| - 1] == id
      ensures length <= |p|
    {
      SameChains(m, name, p);
    }
  }

  /** Follows the parents back from `id`: the chain found, oldest first. */
  method Retrace(m: Metadata, ghost net: Net, parent: Parents, ghost depth: map<string, nat>, id: string)
    returns (path: seq<(string, string)>, ghost p: seq<string>)
    requires Forest(net, parent, depth) && forall k | k in net.known :: Known(m, k)
    requires id in parent && Known(m, id)
    ensures Walkable(net, p) && p[|p| - 1] == id && Names(m, p, path)
    ensures |path| == depth[id] + 1 && path[|path| - 1] == Label(m, id)
  {
    path, p := [Label(m, id)], [id];
    var current := parent[id];
    ghost var head := id;
    while current.Some?
      invariant head in parent && head in depth && current == parent[head]
      invariant p != [] && p[0] == head && p[|p| - 1] == id
      invariant |p| + depth[head] == depth[id] + 1
      invariant forall i | 0 <= i < |p| - 1 :: (p[i], p[i + 1]) in net.edges
      invariant Names(m, p, path)
      decreases depth[head]
    {
      assert Placed(net, head, parent[head], depth);
      path := [Label(m, current.value)] + path;
      p := [current.value] + p;
      head := current.value;
      current := parent[current.value];
    }
    assert Placed(net, head, parent[head], depth);
  }

  /** What the search answers, and what that says of every chain. */
  ghost predicate Answers(m: Metadata, name: string, wanted: string, found: Search) {
    match found
    // A shortest chain to the name, and no unknown id closer than it.
    case Found(path) =>
      && (exists p :: Chain(m, name, false, p) && Named(m, p[|p| - 1], wanted) && Names(m, p, path))
      && (forall id | Named(m, id, wanted) || !Known(m, id) :: AtLeast(m, name, id, |path|))
    // Every id a chain reaches is known, and none has the name.
    case NoPath => forall id | Reached(m, name, false, id) :: Known(m, id) && !Named(m, id, wanted)
    // A nearest unknown id, and nothing with the name closer than it.
    case UnknownId(lost) =>
      && !Known(m, lost)
      && exists p :: Chain(m, name, false, p) && p[|p| - 1] == lost
                     && forall id | Named(m, id, wanted) || !Known(m, id) :: AtLeast(m, name, id, |p|)
  }

  /** The ids expanded so far are known and do not have the name. */
  ghost predicate Passed(m: Metadata, wanted: string, h: Hunt, done: nat) {
    done <= |h.order| && forall i | 0 <= i < done :: Known(m, h.order[i]) && !Named(m, h.order[i], wanted)
  }

  /** At an id that ends the search, nothing that would end it is closer. */
  lemma Nearest(m: Metadata, name: string, wanted: string, h: Hunt, done: nat, parent: Parents)
    requires Searching(NetOf(m, name), h, done, parent) && done < |h.order| && Passed(m, wanted, h, done)
    ensures forall id | Named(m, id, wanted) || !Known(m, id) :: AtLeast(m, name, id, h.depth[h.order[done]] + 1)
  {
    forall id | Named(m, id, wanted) || !Known(m, id)
      ensures AtLeast(m, name, id, h.depth[h.order[done]] + 1)
    {
      NoShortcut(NetOf(m, name), h, done, parent, id);
      FartherIsAtLeast(m, name, id, h.depth[h.order[done]] + 1);
    }
  }

  lemma NothingLeft(m: Metadata, name: string, wanted: string, h: Hunt, parent: Parents)
    requires Searching(NetOf(m, name), h, |h.order|, parent) && Passed(m, wanted, h, |h.order|)
    ensures Answers(m, name, wanted, NoPath)
  {
    forall id | Reached(m, name, false, id)
      ensures Known(m, id) && !Named(m, id, wanted)
    {
      ReachedPassed(m, name, wanted, h, parent, id);
    }
  }

  lemma ReachedPassed(m: Metadata, name: string, wanted: string, h: Hunt, parent: Parents, id: string)
    requires Searching(NetOf(m, name), h, |h.order|, parent) && Passed(m, wanted, h, |h.order|)
    requires Reached(m, name, false, id)
    ensures Known(m, id) && !Named(m, id, wanted)
  {
    var p :| Chain(m, name, false, p) && p[|p| - 1] == id;
    SameChains(m, name, p);
    Exhausted(NetOf(m, name), h, parent, p, |p| - 1);
  }

  lemma Started(m: Metadata, name: string, roots: seq<string>, parent: Parents)
    requires forall id :: id in roots <==> Root(m, name, id)
    requires parent == map id | id in roots :: None
    ensures Searching(NetOf(m, name), Starting(roots), 0, parent)
  {
  }

  /** `queue` is what is enqueued but not expanded. */
  ghost predicate Waits(h: Hunt, done: nat, queue: seq<string>) {
    done <= |h.order| && queue == h.order[done..]
  }

  lemma TakeWaiting(h: Hunt, done: nat, queue: seq<string>)
    requires Waits(h, done, queue) && queue != []
    ensures done < |h.order| && queue[0] == h.order[done] && Carries(h, h, done, queue[1..])
  {
    assert h.order[..|h.order|] == h.order;
  }

  /** The breadth-first search for a package named `wanted`. */
  method ShortestPath(m: Metadata, name: string, wanted: string) returns (found: Search)
    ensures Answers(m, name, wanted, found)
  {
    var queue := Roots(m, name);
    var parent: Parents := map id | id in queue :: None;
    ghost var net, h, done := NetOf(m, name), Starting(queue), 0;
    Started(m, name, queue, parent);
    EdgesAreInside(m);
    while queue != []
      invariant Searching(net, h, done, parent) && Passed(m, wanted, h, done)
      invariant Waits(h, done, queue)
      invariant parent.Keys <= Universe(m)
      decreases Universe(m) - parent.Keys, |queue|
    {
      var current := queue[0];
      TakeWaiting(h, done, queue);
      queue := queue[1..];
      if !Known(m, current) || Named(m, current, wanted) {
        Nearest(m, name, wanted, h, done, parent);
        found := Conclude(m, name, wanted, net, parent, h.depth, current);
        return;
      }
      var targets := Targets(m, current);
      ghost var g := h;
      ghost var marked, before := parent, queue;
      queue, parent, h := Expand(net, current, targets, queue, parent, h, done);
      StillPassed(m, wanted, g, h, done);
      Shrinks(Universe(m), marked, parent, targets, before, queue);
      done := done + 1;
    }
    NothingLeft(m, name, wanted, h, parent);
    return NoPath;
  }

  /** Expanding either marks something new or leaves the marks and the queue as they were. */
  lemma Shrinks(u: set<string>, marked: Parents, parent: Parents, targets: seq<string>, before: seq<string>, queue: seq<string>)
    requires Marks(marked, parent, targets, before, queue)
    requires marked.Keys <= u && forall b | b in targets :: b in u
    ensures parent.Keys <= u
    ensures u - parent.Keys < u - marked.Keys || (u - parent.Keys == u - marked.Keys && queue == before)
  {
    if parent.Keys != marked.Keys {
      var b :| b in parent && b !in marked;
      assert b in u - marked.Keys && b !in u - parent.Keys;
    }
  }

  lemma StillPassed(m: Metadata, wanted: string, h: Hunt, g: Hunt, done: nat)
    requires Passed(m, wanted, h, done) && done < |h.order| <= |g.order| && g.order[..|h.order|] == h.order
    requires Known(m, h.order[done]) && !Named(m, h.order[done], wanted)
    ensures Passed(m, wanted, g, done + 1)
  {
    assert forall i | 0 <= i < |h.order| :: g.order[i] == g.order[..|h.order|][i];
  }

  /** The two ways the search ends at `current`: an id no package has, or the package. */
  method Conclude(m: Metadata, name: string, wanted: string, ghost net: Net, parent: Parents, ghost depth: map<string, nat>, current: string)
    returns (found: Search)
    requires net == NetOf(m, name) && Forest(net, parent, depth) && current in depth
    requires !Known(m, current) || Named(m, current, wanted)
    requires forall id | Named(m, id, wanted) || !Known(m, id) :: AtLeast(m, name, id, depth[current] + 1)
    ensures Answers(m, name, wanted, found) && !found.NoPath?
  {
    if !Known(m, current) {
      ghost var p := ChainTo(net, parent, depth, current);
      SameChains(m, name, p);
      return UnknownId(current);
    }
    var path: seq<(string, string)>;
    ghost var p;
    path, p := Retrace(m, net, parent, depth, current);
    SameChains(m, name, p);
    return Found(path);
  }

  /** `NoPath` is answered exactly when nothing that would end the search is reached. */
  lemma NoPathExactly(m: Metadata, name: string, wanted: string, found: Search)
    requires Answers(m, name, wanted, found)
    ensures found.NoPath? <==> forall id | Reached(m, name, false, id) :: Known(m, id) && !Named(m, id, wanted)
  {
    if found.Found? {
      var p :| Chain(m, name, false, p) && Named(m, p[|p| - 1], wanted) && Names(m, p, found.path);
      assert Reached(m, name, false, p[|p| - 1]);
    } else if found.UnknownId? {
      assert Reached(m, name, false, found.id);
    }
  }

  /** On metadata that lists every package it reaches, the search answers `NoPath` exactly
    * when `linked` has no package of that name, and finds a path otherwise. */
  lemma FoundMeansLinked(m: Metadata, name: string, wanted: string, found: Search)
    requires Answers(m, name, wanted, found)
    requires forall id | Reached(m, name, false, id) :: Known(m, id)
    ensures !found.UnknownId?
    ensures found.NoPath? <==> !exists pkg :: Links(m, name, pkg) && pkg.name == wanted
  {
    NoPathExactly(m, name, wanted, found);
    if found.UnknownId? {
      assert Reached(m, name, false, found.id);
    }
    if pkg :| Links(m, name, pkg) && pkg.name == wanted {
      assert Reached(m, name, false, pkg.id) && Named(m, pkg.id, wanted);
    }
    if id :| Reached(m, name, false, id) && Named(m, id, wanted) {
      LookupListed(m.packages, id);
      assert Links(m, name, Lookup(m.packages, id).value);
    }
  }

  // ---------------------------------------------------------------- what ships

  /** One of the two dependency graphs of a package: its binary, and where that ships. */
  datatype Graph = Graph(metadata: Metadata, binary: string, place: string)

  datatype Entry = Entry(places: set<string>, buildTimeOnly: bool)

  /** A third-party package `g`'s binary links, under that name and version. */
  ghost predicate Ships(g: Graph, name: string, version: string, pkg: Package) {
    Links(g.metadata, g.binary, pkg) && pkg.source.Some? && pkg.name == name && pkg.version == version
  }

  ghost predicate InBinary(g: Graph, pkg: Package) {
    Reached(g.metadata, g.binary, true, pkg.id)
  }

  /** A package with that name and version that some of `graphs` ships, or of `done` of `g`. */
  ghost predicate Source(graphs: seq<Graph>, g: Graph, done: set<Package>, name: string, version: string, from: Graph, pkg: Package) {
    Ships(from, name, version, pkg) && (from in graphs || (from == g && pkg in done))
  }

  /** What `components` says of a name and version once `graphs` and the packages `done`
    * of `g` are in. */
  ghost predicate Listed(graphs: seq<Graph>, g: Graph, done: set<Package>, name: string, version: string,
                         components: map<(string, string), Entry>)
  {
    var key := (name, version);
    && (key in components <==> exists from, pkg :: Source(graphs, g, done, name, version, from, pkg))
    && (key in components ==>
          && (forall place :: place in components[key].places <==>
                exists from, pkg :: Source(graphs, g, done, name, version, from, pkg) && from.place == place)
          && (components[key].buildTimeOnly <==>
                forall from, pkg | Source(graphs, g, done, name, version, from, pkg) :: !InBinary(from, pkg)))
  }

  /** Adds one linked package to the components. */
  function Merged(components: map<(string, string), Entry>, place: string, pkg: Package, inBinary: bool)
    : map<(string, string), Entry>
  {
    var key := (pkg.name, pkg.version);
    var entry := if key in components then components[key] else Entry({}, true);
    components[key := Entry(entry.places + {place}, entry.buildTimeOnly && !inBinary)]
  }

  lemma MergeLists(graphs: seq<Graph>, g: Graph, done: set<Package>, pkg: Package,
                   components: map<(string, string), Entry>, name: string, version: string)
    requires Links(g.metadata, g.binary, pkg)
    requires Listed(graphs, g, done, name, version, components)
    ensures pkg.source.Some? ==> Listed(graphs, g, done + {pkg}, name, version, Merged(components, g.place, pkg, InBinary(g, pkg)))
    ensures pkg.source.None? ==> Listed(graphs, g, done + {pkg}, name, version, components)
  {
    var more := done + {pkg};
    forall from, p
      ensures Source(graphs, g, more, name, version, from, p) <==>
                Source(graphs, g, done, name, version, from, p) || (from == g && p == pkg && Ships(g, name, version, pkg))
    {
    }
    if Ships(g, name, version, pkg) {
      assert Source(graphs, g, more, name, version, g, pkg);
    }
  }

  lemma GraphListed(graphs: seq<Graph>, g: Graph, next: Graph, all: set<Package>, name: string, version: string,
                    components: map<(string, string), Entry>)
    requires forall pkg :: pkg in all <==> Links(g.metadata, g.binary, pkg)
    requires Listed(graphs, g, all, name, version, components)
    ensures Listed(graphs + [g], next, {}, name, version, components)
  {
    forall from, p
      ensures Source(graphs + [g], next, {}, name, version, from, p) <==> Source(graphs, g, all, name, version, from, p)
    {
    }
  }

  ghost predicate EndsAt(g: Graph, p: seq<string>, id: string) {
    Chain(g.metadata, g.binary, false, p) && p[|p| - 1] == id
  }

  ghost predicate MacroOnEveryPath(g: Graph, pkg: Package) {
    forall p | EndsAt(g, p, pkg.id) :: exists i | 0 <= i < |p| :: Macro(g.metadata, p[i])
  }

  /** `buildTimeOnly` in terms of paths: a linked package is out of the binary exactly when
    * every chain of normal dependencies to it passes through, or ends in, a procedural
    * macro. */
  lemma OutOfBinaryMeansMacroOnEveryPath(g: Graph, pkg: Package)
    ensures !InBinary(g, pkg) <==> MacroOnEveryPath(g, pkg)
  {
    if InBinary(g, pkg) {
      var p :| Chain(g.metadata, g.binary, true, p) && p[|p| - 1] == pkg.id;
      assert EndsAt(g, p, pkg.id);
      assert forall i | 0 <= i < |p| :: !Barred(g.metadata, true, p[i]);
    } else {
      forall p | EndsAt(g, p, pkg.id)
        ensures exists i | 0 <= i < |p| :: Macro(g.metadata, p[i])
      {
        assert !Chain(g.metadata, g.binary, true, p);
      }
    }
  }

  /** The crates of the two graphs by name and version: where each ships, and whether it is
    * used at build time only, which it is exactly when in every graph every chain of normal
    * dependencies to every package of that name and version passes through, or ends in, a
    * procedural macro. */
  method Shipped(graphs: seq<Graph>) returns (components: map<(string, string), Entry>)
    ensures forall name, version :: (name, version) in components <==>
              exists g, pkg :: g in graphs && Ships(g, name, version, pkg)
    ensures forall name, version, place | (name, version) in components ::
              place in components[(name, version)].places <==>
                exists g, pkg :: g in graphs && Ships(g, name, version, pkg) && g.place == place
    ensures forall name, version | (name, version) in components ::
              components[(name, version)].buildTimeOnly <==>
                forall g, pkg | g in graphs && Ships(g, name, version, pkg) :: MacroOnEveryPath(g, pkg)
  {
    components := map[];
    ghost var none := Graph(Metadata([], []), "", "");
    var i := 0;
    while i < |graphs|
      invariant 0 <= i <= |graphs|
      invariant forall name, version :: Listed(graphs[..i], none, {}, name, version, components)
    {
      components := AddGraph(graphs[..i], graphs[i], components, none);
      assert graphs[..i + 1] == graphs[..i] + [graphs[i]];
      i := i + 1;
    }
    assert graphs[..i] == graphs;
    Delivered(graphs, none, components);
    forall g, pkg
      ensures !InBinary(g, pkg) <==> MacroOnEveryPath(g, pkg)
    {
      OutOfBinaryMeansMacroOnEveryPath(g, pkg);
    }
  }

  lemma Delivered(graphs: seq<Graph>, none: Graph, components: map<(string, string), Entry>)
    requires forall name, version :: Listed(graphs, none, {}, name, version, components)
    ensures forall name, version :: (name, version) in components <==>
              exists g, pkg :: g in graphs && Ships(g, name, version, pkg)
    ensures forall name, version, place | (name, version) in components ::
              place in components[(name, version)].places <==>
                exists g, pkg :: g in graphs && Ships(g, name, version, pkg) && g.place == place
    ensures forall name, version | (name, version) in components ::
              components[(name, version)].buildTimeOnly <==>
                forall g, pkg | g in graphs && Ships(g, name, version, pkg) :: !InBinary(g, pkg)
  {
    forall name, version
      ensures (name, version) in components <==> exists g, pkg :: g in graphs && Ships(g, name, version, pkg)
      ensures (name, version) in components ==> forall place :: place in components[(name, version)].places <==>
                exists g, pkg :: g in graphs && Ships(g, name, version, pkg) && g.place == place
      ensures (name, version) in components ==> (components[(name, version)].buildTimeOnly <==>
                forall g, pkg | g in graphs && Ships(g, name, version, pkg) :: !InBinary(g, pkg))
    {
      assert Listed(graphs, none, {}, name, version, components);
      assert forall g, pkg :: Source(graphs, none, {}, name, version, g, pkg) <==> g in graphs && Ships(g, name, version, pkg);
    }
  }

  method AddGraph(ghost graphs: seq<Graph>, g: Graph, before: map<(string, string), Entry>, ghost next: Graph)
    returns (components: map<(string, string), Entry>)
    requires forall name, version :: Listed(graphs, next, {}, name, version, before)
    ensures forall name, version :: Listed(graphs + [g], next, {}, name, version, components)
  {
    var inBinary := Walk(g.metadata, g.binary, true);
    var linked := Linked(g.metadata, g.binary);
    var left := linked;
    components := before;
    forall name, version
      ensures Listed(graphs, g, {}, name, version, components)
    {
      assert Listed(graphs, next, {}, name, version, before);
      assert forall from, p :: Source(graphs, g, {}, name, version, from, p) <==> Source(graphs, next, {}, name, version, from, p);
    }
    ghost var done: set<Package> := {};
    while left != {}
      invariant done + left == linked
      invariant forall name, version :: Listed(graphs, g, done, name, version, components)
      decreases left
    {
      var pkg :| pkg in left;
      assert pkg.id in inBinary <==> InBinary(g, pkg);
      forall name, version
        ensures pkg.source.Some? ==> Listed(graphs, g, done + {pkg}, name, version, Merged(components, g.place, pkg, pkg.id in inBinary))
        ensures pkg.source.None? ==> Listed(graphs, g, done + {pkg}, name, version, components)
      {
        MergeLists(graphs, g, done, pkg, components, name, version);
      }
      if pkg.source.Some? {
        components := Merged(components, g.place, pkg, pkg.id in inBinary);
      }
      done, left := done + {pkg}, left - {pkg};
    }
    forall name, version
      ensures Listed(graphs + [g], next, {}, name, version, components)
    {
      GraphListed(graphs, g, next, linked, name, version, components);
    }
  }
}
