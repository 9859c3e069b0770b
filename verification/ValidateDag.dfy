/** validateDAG: the checks made before a Transaction exists, Kahn's algorithm
    last, and the two readiness scans (go/internal/transaction/dag.go). */
module ValidateDag {
  import opened Common
  import opened Dag

  const MaxTransfersPerTransaction: nat := 64

  datatype Money = Money(units: nat, currency: string)

  /** A child as the request spells it: its own id again, and its amount. */
  datatype Child = Child(id: Id, amount: Option<Money>)

  datatype DagError = Empty | TooWide | WrongKey | BadAmount | UnknownChild | UnknownParent | Cyclic

  /** money.Validate: present, with a currency, and more than zero. */
  predicate ValidAmount(m: Option<Money>) { m.Some? && m.value.currency != "" && m.value.units > 0 }

  predicate WellFormed(transfers: map<Id, Child>) {
    forall k :: k in transfers ==> transfers[k].id == k && ValidAmount(transfers[k].amount)
  }

  predicate NoDangling(nodes: set<Id>, deps: Deps) {
    forall c :: c in deps ==> c in nodes && forall p :: p in deps[c] ==> p in nodes
  }

  ghost predicate Valid(transfers: map<Id, Child>, deps: Deps) {
    && transfers != map[] && |transfers| <= MaxTransfersPerTransaction
    && WellFormed(transfers) && NoDangling(transfers.Keys, deps) && Acyclic(deps)
  }

  /** What each error says is wrong; a check made earlier found nothing. */
  ghost predicate Names(transfers: map<Id, Child>, deps: Deps, e: DagError) {
    match e
    case Empty => transfers == map[]
    case TooWide => |transfers| > MaxTransfersPerTransaction
    case WrongKey => exists k :: k in transfers && transfers[k].id != k
    case BadAmount => exists k :: k in transfers && !ValidAmount(transfers[k].amount)
    case UnknownChild => WellFormed(transfers) && exists c :: c in deps && c !in transfers
    case UnknownParent =>
      WellFormed(transfers) && exists c, p :: c in transfers && c in deps && p in deps[c] && p !in transfers
    case Cyclic => WellFormed(transfers) && NoDangling(transfers.Keys, deps) && !Acyclic(deps)
  }

  // ---- In-degrees ----------------------------------------------------------

  /** How often `x` is listed in `ps`. */
  function Times(ps: seq<Id>, x: Id): nat {
    if ps == [] then 0 else Times(ps[..|ps| - 1], x) + if ps[|ps| - 1] == x then 1 else 0
  }

  lemma TimesSnoc(ps: seq<Id>, y: Id, x: Id)
    ensures Times(ps + [y], x) == Times(ps, x) + if x == y then 1 else 0
  {
    assert (ps + [y])[..|ps|] == ps;
  }

  /** How many entries of `ps`, repeats included, are not in `done`. */
  function Remaining(ps: seq<Id>, done: set<Id>): nat {
    if ps == [] then 0 else Remaining(ps[..|ps| - 1], done) + if ps[|ps| - 1] in done then 0 else 1
  }

  lemma {:induction false} RemainingZero(ps: seq<Id>, done: set<Id>)
    ensures Remaining(ps, done) == 0 <==> forall p :: p in ps ==> p in done
  {
    if ps != [] {
      var n := |ps| - 1;
      RemainingZero(ps[..n], done);
      assert ps == ps[..n] + [ps[n]];
    }
  }

  lemma {:induction false} RemainingAfter(ps: seq<Id>, done: set<Id>, x: Id)
    requires x !in done
    ensures Remaining(ps, done) == Remaining(ps, done + {x}) + Times(ps, x)
  {
    if ps != [] {
      var n := |ps| - 1;
      RemainingAfter(ps[..n], done, x);
      assert ps == ps[..n] + [ps[n]];
    }
  }

  lemma {:induction false} RemainingNone(ps: seq<Id>)
    ensures Remaining(ps, {}) == |ps|
  {
    if ps != [] { RemainingNone(ps[..|ps| - 1]); }
  }

  type Children = map<Id, seq<Id>>

  function Kids(children: Children, p: Id): seq<Id> { if p in children then children[p] else [] }

  ghost predicate Degrees(nodes: set<Id>, edges: Deps, inDegree: map<Id, int>) {
    inDegree.Keys == nodes && forall c :: c in nodes ==> inDegree[c] == |Parents(edges, c)|
  }

  /** Each parent lists its children as often as they list it. */
  ghost predicate Mirrors(edges: Deps, children: Children) {
    forall p, c :: Times(Kids(children, p), c) == Times(Parents(edges, c), p)
  }

  function AddEdge(edges: Deps, c: Id, p: Id): Deps { edges[c := Parents(edges, c) + [p]] }

  lemma OneMoreKid(children: Children, p: Id, c: Id, q: Id, d: Id)
    ensures Times(Kids(children[p := Kids(children, p) + [c]], q), d) ==
            Times(Kids(children, q), d) + if q == p && d == c then 1 else 0
  {
    TimesSnoc(Kids(children, p), c, d);
  }

  lemma OneMoreParent(edges: Deps, p: Id, c: Id, q: Id, d: Id)
    ensures Times(Parents(AddEdge(edges, c, p), d), q) ==
            Times(Parents(edges, d), q) + if q == p && d == c then 1 else 0
  {
    TimesSnoc(Parents(edges, c), p, q);
  }

  lemma EdgeMirrors(edges: Deps, children: Children, c: Id, p: Id)
    requires Mirrors(edges, children)
    ensures Mirrors(AddEdge(edges, c, p), children[p := Kids(children, p) + [c]])
  {
    var edges', children' := AddEdge(edges, c, p), children[p := Kids(children, p) + [c]];
    forall q, d ensures Times(Kids(children', q), d) == Times(Parents(edges', d), q) {
      OneMoreKid(children, p, c, q, d);
      OneMoreParent(edges, p, c, q, d);
      assert Times(Kids(children, q), d) == Times(Parents(edges, d), q);
    }
  }

  lemma EdgeDegrees(nodes: set<Id>, edges: Deps, inDegree: map<Id, int>, c: Id, p: Id)
    requires Degrees(nodes, edges, inDegree) && c in nodes
    ensures Degrees(nodes, AddEdge(edges, c, p), inDegree[c := inDegree[c] + 1])
  {
  }

  ghost predicate Graph(nodes: set<Id>, edges: Deps, inDegree: map<Id, int>, children: Children) {
    Degrees(nodes, edges, inDegree) && Mirrors(edges, children)
  }

  lemma GraphStart(nodes: set<Id>, edges: Deps, c: Id, parents: seq<Id>, inDegree: map<Id, int>, children: Children)
    requires c !in edges && Graph(nodes, edges, inDegree, children)
    ensures Graph(nodes, edges[c := parents[..0]], inDegree, children)
  {
    var edges' := edges[c := parents[..0]];
    assert forall d :: Parents(edges', d) == Parents(edges, d);
  }

  lemma GraphNext(nodes: set<Id>, edges: Deps, c: Id, parents: seq<Id>, n: nat, inDegree: map<Id, int>,
      children: Children)
    requires c in nodes && n < |parents| && Graph(nodes, edges[c := parents[..n]], inDegree, children)
    ensures Graph(nodes, edges[c := parents[..n + 1]], inDegree[c := inDegree[c] + 1],
                  children[parents[n] := Kids(children, parents[n]) + [c]])
  {
    var sofar := edges[c := parents[..n]];
    EdgeDegrees(nodes, sofar, inDegree, c, parents[n]);
    EdgeMirrors(sofar, children, c, parents[n]);
    assert parents[..n + 1] == parents[..n] + [parents[n]];
    assert AddEdge(sofar, c, parents[n]) == edges[c := parents[..n + 1]];
  }

  /** Adds child `c`'s edges, or finds a parent nobody declared. */
  method AddChild(nodes: set<Id>, ghost edges: Deps, c: Id, parents: seq<Id>, inDegree: map<Id, int>,
      children: Children)
    returns (known: bool, inDegree': map<Id, int>, children': Children)
    requires c in nodes && c !in edges && Graph(nodes, edges, inDegree, children)
    ensures known <==> forall p :: p in parents ==> p in nodes
    ensures known ==> Graph(nodes, edges[c := parents], inDegree', children')
  {
    inDegree', children', known := inDegree, children, true;
    GraphStart(nodes, edges, c, parents, inDegree, children);
    for n := 0 to |parents|
      invariant Graph(nodes, edges[c := parents[..n]], inDegree', children')
      invariant forall i :: 0 <= i < n ==> parents[i] in nodes
    {
      var p := parents[n];
      if p !in nodes { return false, inDegree', children'; }
      GraphNext(nodes, edges, c, parents, n, inDegree', children');
      inDegree' := inDegree'[c := inDegree'[c] + 1];
      children' := children'[p := Kids(children', p) + [c]];
    }
    assert parents[..|parents|] == parents;
  }

  /** The part of `deps` listed so far. */
  function Listed(deps: Deps, todo: set<Id>): Deps { map c | c in deps && c !in todo :: deps[c] }

  /** Counts every node's parents and lists every node's children, taking the
      dependencies in any order. */
  method BuildGraph(nodes: set<Id>, deps: Deps) returns (error: Option<DagError>, inDegree: map<Id, int>,
      children: Children)
    ensures error.None? <==> NoDangling(nodes, deps)
    ensures error.Some? ==> error.value == UnknownChild || error.value == UnknownParent
    ensures error == Some(UnknownChild) ==> exists c :: c in deps && c !in nodes
    ensures error == Some(UnknownParent) ==> exists c, p :: c in nodes && c in deps && p in deps[c] && p !in nodes
    ensures error.None? ==> Graph(nodes, deps, inDegree, children)
  {
    error, children := None, map[];
    inDegree := map id | id in nodes :: 0;
    var todo := deps.Keys;
    while todo != {}
      invariant todo <= deps.Keys
      invariant Graph(nodes, Listed(deps, todo), inDegree, children)
      invariant forall c :: c in deps && c !in todo ==> c in nodes && forall p :: p in deps[c] ==> p in nodes
      decreases todo
    {
      var c :| c in todo;
      if c !in nodes { return Some(UnknownChild), inDegree, children; }
      var known;
      known, inDegree, children := AddChild(nodes, Listed(deps, todo), c, deps[c], inDegree, children);
      if !known { return Some(UnknownParent), inDegree, children; }
      assert Listed(deps, todo)[c := deps[c]] == Listed(deps, todo - {c});
      todo := todo - {c};
    }
    assert Listed(deps, todo) == deps;
  }

  // ---- Kahn's algorithm ----------------------------------------------------

  ghost function Set(order: seq<Id>): set<Id> { set x | x in order }

  lemma SetSnoc(order: seq<Id>, x: Id)
    ensures Set(order + [x]) == Set(order) + {x}
  {
  }

  lemma {:induction false} SetSize(order: seq<Id>)
    ensures |Set(order)| <= |order|
  {
    if order != [] {
      var n := |order| - 1;
      SetSize(order[..n]);
      SetSnoc(order[..n], order[n]);
      assert order == order[..n] + [order[n]];
    }
  }

  /** The nodes released so far are exactly those with no parent left. */
  ghost predicate Released(nodes: set<Id>, released: set<Id>, inDegree: map<Id, int>) {
    && released <= nodes && inDegree.Keys == nodes
    && forall n :: n in nodes ==> (inDegree[n] == 0 <==> n in released)
  }

  /** Each released node was either processed or queued, and only once. */
  ghost predicate Once(released: set<Id>, order: seq<Id>, queue: seq<Id>) {
    released == Set(order) + Set(queue) && |released| == |order| + |queue|
  }

  /** What is left of each node's parents once `order` is processed. */
  ghost predicate Counts(nodes: set<Id>, deps: Deps, order: seq<Id>, inDegree: map<Id, int>) {
    && inDegree.Keys == nodes
    && forall n :: n in nodes ==> inDegree[n] == Remaining(Parents(deps, n), Set(order))
  }

  ghost predicate Kahn(nodes: set<Id>, deps: Deps, order: seq<Id>, queue: seq<Id>, released: set<Id>,
      inDegree: map<Id, int>) {
    && Released(nodes, released, inDegree) && Once(released, order, queue)
    && Counts(nodes, deps, order, inDegree) && ParentsFirst(deps, order)
  }

  /** Counts midway through releasing the children of the node just taken. */
  ghost predicate CountsMidway(nodes: set<Id>, deps: Deps, order: seq<Id>, kids: seq<Id>, inDegree: map<Id, int>) {
    && inDegree.Keys == nodes
    && forall n :: n in nodes ==> inDegree[n] == Remaining(Parents(deps, n), Set(order)) - Times(kids, n)
  }

  lemma {:induction false} TimesPrefix(ps: seq<Id>, j: nat, x: Id)
    requires j <= |ps|
    ensures Times(ps[..j], x) <= Times(ps, x)
  {
    if j < |ps| {
      TimesPrefix(ps[..|ps| - 1], j, x);
      assert ps[..|ps| - 1][..j] == ps[..j];
    } else {
      assert ps[..j] == ps;
    }
  }

  lemma {:induction false} TimesPositive(ps: seq<Id>, j: nat)
    requires j < |ps|
    ensures Times(ps, ps[j]) > 0
  {
    if j < |ps| - 1 { TimesPositive(ps[..|ps| - 1], j); }
  }

  /** The next child in the list still counts the node just taken. */
  lemma StillCounted(nodes: set<Id>, deps: Deps, children: Children, order: seq<Id>, id: Id, j: nat,
      inDegree: map<Id, int>)
    requires Mirrors(deps, children) && id !in order && j < |Kids(children, id)|
    requires var kids := Kids(children, id); kids[j] in nodes && CountsMidway(nodes, deps, order, kids[..j], inDegree)
    ensures inDegree[Kids(children, id)[j]] > 0
  {
    var kids := Kids(children, id);
    var c := kids[j];
    TimesSnoc(kids[..j], c, c);
    assert kids[..j] + [c] == kids[..j + 1];
    TimesPrefix(kids, j + 1, c);
    RemainingAfter(Parents(deps, c), Set(order), id);
    assert Times(kids, c) == Times(Parents(deps, c), id);
  }

  lemma {:induction false} KidIsNode(nodes: set<Id>, deps: Deps, children: Children, id: Id, j: nat)
    requires Mirrors(deps, children) && NoDangling(nodes, deps) && j < |Kids(children, id)|
    ensures Kids(children, id)[j] in nodes
  {
    var c := Kids(children, id)[j];
    TimesPositive(Kids(children, id), j);
    assert Times(Parents(deps, c), id) > 0;
  }

  lemma Decremented(nodes: set<Id>, deps: Deps, order: seq<Id>, kids: seq<Id>, j: nat, inDegree: map<Id, int>)
    requires j < |kids| && kids[j] in nodes && CountsMidway(nodes, deps, order, kids[..j], inDegree)
    ensures CountsMidway(nodes, deps, order, kids[..j + 1], inDegree[kids[j] := inDegree[kids[j]] - 1])
  {
    var c := kids[j];
    assert kids[..j + 1] == kids[..j] + [c];
    forall n ensures Times(kids[..j + 1], n) == Times(kids[..j], n) + if n == c then 1 else 0 {
      TimesSnoc(kids[..j], c, n);
    }
  }

  /** A child is queued once its last parent is gone. */
  function Enqueue(queue: seq<Id>, c: Id, degree: int): seq<Id> { if degree == 0 then queue + [c] else queue }

  ghost function Freed(released: set<Id>, c: Id, degree: int): set<Id> {
    if degree == 0 then released + {c} else released
  }

  lemma ReleasedNext(nodes: set<Id>, released: set<Id>, order: seq<Id>, queue: seq<Id>, inDegree: map<Id, int>, c: Id)
    requires Released(nodes, released, inDegree) && Once(released, order, queue) && c in nodes && inDegree[c] > 0
    ensures var v := inDegree[c] - 1;
      Released(nodes, Freed(released, c, v), inDegree[c := v]) &&
          Once(Freed(released, c, v), order, Enqueue(queue, c, v))
  {
    SetSnoc(queue, c);
  }

  /** Taking the head of the queue moves it, once, to the processed. */
  lemma TakenIsFresh(released: set<Id>, order: seq<Id>, id: Id, rest: seq<Id>)
    requires Once(released, order, [id] + rest)
    ensures id !in order && Once(released, order + [id], rest)
  {
    SetCons(id, rest);
    assert id !in order by { CannotRepeat(released, order, id, rest); }
    SetSnoc(order, id);
    assert released == Set(order + [id]) + Set(rest);
  }

  lemma SetCons(x: Id, rest: seq<Id>)
    ensures Set([x] + rest) == {x} + Set(rest)
  {
  }

  lemma CannotRepeat(released: set<Id>, order: seq<Id>, id: Id, rest: seq<Id>)
    requires |released| == |order| + |rest| + 1 && released == Set(order) + ({id} + Set(rest))
    ensures id !in order
  {
    SetSize(order);
    SetSize(rest);
    var a, b := Set(order), Set(rest);
    assert |a + b| <= |a| + |b|;
    assert released != a + b;
  }

  lemma TakenCounts(nodes: set<Id>, deps: Deps, children: Children, order: seq<Id>, id: Id, inDegree: map<Id, int>)
    requires Mirrors(deps, children) && id !in order && CountsMidway(nodes, deps, order, Kids(children, id), inDegree)
    ensures Counts(nodes, deps, order + [id], inDegree)
  {
    assert Set(order + [id]) == Set(order) + {id};
    forall n | n in nodes ensures inDegree[n] == Remaining(Parents(deps, n), Set(order + [id])) {
      RemainingAfter(Parents(deps, n), Set(order), id);
      assert Times(Kids(children, id), n) == Times(Parents(deps, n), id);
    }
  }

  lemma TakenParentsFirst(nodes: set<Id>, deps: Deps, order: seq<Id>, id: Id, inDegree: map<Id, int>)
    requires Counts(nodes, deps, order, inDegree) && ParentsFirst(deps, order) && id in nodes && inDegree[id] == 0
    ensures ParentsFirst(deps, order + [id])
  {
    RemainingZero(Parents(deps, id), Set(order));
    forall i, p | 0 <= i < |order + [id]| && p in Parents(deps, (order + [id])[i]) ensures p in (order + [id])[..i] {
      if i < |order| { assert (order + [id])[..i] == order[..i]; } else { assert (order + [id])[..i] == order; }
    }
  }

  /** Midway through releasing the children of `id`, just taken. */
  ghost predicate Releasing(nodes: set<Id>, deps: Deps, children: Children, order: seq<Id>, id: Id, j: nat,
                            queue: seq<Id>, released: set<Id>, inDegree: map<Id, int>) {
    && j <= |Kids(children, id)|
    && Released(nodes, released, inDegree) && Once(released, order + [id], queue)
    && CountsMidway(nodes, deps, order, Kids(children, id)[..j], inDegree)
  }

  lemma ReleasingNext(nodes: set<Id>, deps: Deps, children: Children, order: seq<Id>, id: Id, j: nat,
                      queue: seq<Id>, released: set<Id>, inDegree: map<Id, int>)
    requires NoDangling(nodes, deps) && Mirrors(deps, children) && j < |Kids(children, id)| && id !in order
    requires Releasing(nodes, deps, children, order, id, j, queue, released, inDegree)
    ensures var c := Kids(children, id)[j];
      c in nodes && var v := inDegree[c] - 1;
      Releasing(nodes, deps, children, order, id, j + 1, Enqueue(queue, c, v), Freed(released, c, v), inDegree[c := v])
  {
    var c := Kids(children, id)[j];
    KidIsNode(nodes, deps, children, id, j);
    StillCounted(nodes, deps, children, order, id, j, inDegree);
    Decremented(nodes, deps, order, Kids(children, id), j, inDegree);
    ReleasedNext(nodes, released, order + [id], queue, inDegree, c);
  }

  /** Nothing is released before the first child is looked at. */
  lemma Taken(nodes: set<Id>, deps: Deps, children: Children, order: seq<Id>, id: Id, rest: seq<Id>,
              released: set<Id>, inDegree: map<Id, int>)
    requires Kahn(nodes, deps, order, [id] + rest, released, inDegree)
    ensures id !in order && Releasing(nodes, deps, children, order, id, 0, rest, released, inDegree) &&
      ParentsFirst(deps, order + [id])
  {
    TakenIsFresh(released, order, id, rest);
    assert id in Set(order + [id]);
    TakenParentsFirst(nodes, deps, order, id, inDegree);
  }

  lemma Finished(nodes: set<Id>, deps: Deps, children: Children, order: seq<Id>, id: Id, queue: seq<Id>,
                 released: set<Id>, inDegree: map<Id, int>)
    requires Mirrors(deps, children) && id !in order && ParentsFirst(deps, order + [id])
    requires Releasing(nodes, deps, children, order, id, |Kids(children, id)|, queue, released, inDegree)
    ensures Kahn(nodes, deps, order + [id], queue, released, inDegree)
  {
    var kids := Kids(children, id);
    assert kids[..|kids|] == kids;
    TakenCounts(nodes, deps, children, order, id, inDegree);
  }

  /** One child of `id` loses it, and is queued when it has no parent left. */
  method ReleaseChild(ghost nodes: set<Id>, ghost deps: Deps, children: Children, ghost order: seq<Id>, id: Id, j: nat,
                      queue: seq<Id>, ghost released: set<Id>, inDegree: map<Id, int>)
    returns (queue': seq<Id>, ghost released': set<Id>, inDegree': map<Id, int>)
    requires NoDangling(nodes, deps) && Mirrors(deps, children) && j < |Kids(children, id)| && id !in order
    requires Releasing(nodes, deps, children, order, id, j, queue, released, inDegree)
    ensures Releasing(nodes, deps, children, order, id, j + 1, queue', released', inDegree')
  {
    var c := Kids(children, id)[j];
    ReleasingNext(nodes, deps, children, order, id, j, queue, released, inDegree);
    var v := inDegree[c] - 1;
    queue', released', inDegree' := Enqueue(queue, c, v), Freed(released, c, v), inDegree[c := v];
  }

  /** Takes one node off the graph: its children lose it, and those left with no
      parent are queued. */
  method Release(ghost nodes: set<Id>, ghost deps: Deps, children: Children, ghost order: seq<Id>, id: Id,
      rest: seq<Id>,
                 ghost released: set<Id>, inDegree: map<Id, int>)
    returns (queue: seq<Id>, ghost released': set<Id>, inDegree': map<Id, int>)
    requires NoDangling(nodes, deps) && Mirrors(deps, children) &&
      Kahn(nodes, deps, order, [id] + rest, released, inDegree)
    ensures Kahn(nodes, deps, order + [id], queue, released', inDegree')
  {
    queue, released', inDegree' := rest, released, inDegree;
    Taken(nodes, deps, children, order, id, rest, released, inDegree);
    for j := 0 to |Kids(children, id)|
      invariant Releasing(nodes, deps, children, order, id, j, queue, released', inDegree')
    {
      queue, released', inDegree' := ReleaseChild(nodes, deps, children, order, id, j, queue, released', inDegree');
    }
    Finished(nodes, deps, children, order, id, queue, released', inDegree');
  }

  /** The nodes with no parents, in any order. */
  method Roots(nodes: set<Id>, inDegree: map<Id, int>) returns (queue: seq<Id>, ghost released: set<Id>)
    requires inDegree.Keys == nodes
    ensures Released(nodes, released, inDegree) && Once(released, [], queue)
  {
    queue, released := [], {};
    var todo := nodes;
    while todo != {}
      invariant todo <= nodes && released <= nodes - todo && Once(released, [], queue)
      invariant forall n :: n in nodes - todo ==> (inDegree[n] == 0 <==> n in released)
      decreases todo
    {
      var id :| id in todo;
      if inDegree[id] == 0 {
        SetSnoc(queue, id);
        queue, released := queue + [id], released + {id};
      }
      todo := todo - {id};
    }
  }

  lemma KahnStart(nodes: set<Id>, deps: Deps, queue: seq<Id>, released: set<Id>, inDegree: map<Id, int>)
    requires Degrees(nodes, deps, inDegree) && Released(nodes, released, inDegree) && Once(released, [], queue)
    ensures Kahn(nodes, deps, [], queue, released, inDegree)
  {
    assert Set([]) == {};
    forall n | n in nodes ensures inDegree[n] == Remaining(Parents(deps, n), {}) { RemainingNone(Parents(deps, n)); }
  }

  /** Whoever is left when the queue runs dry has a parent among the left. */
  lemma LeftoversAreCyclic(nodes: set<Id>, deps: Deps, order: seq<Id>, inDegree: map<Id, int>)
    requires NoDangling(nodes, deps) && Released(nodes, Set(order), inDegree) && Counts(nodes, deps, order, inDegree)
    requires nodes - Set(order) != {}
    ensures !Acyclic(deps)
  {
    var left := nodes - Set(order);
    forall x | x in left ensures HasParentIn(deps, left, x) {
      RemainingZero(Parents(deps, x), Set(order));
      var p :| p in Parents(deps, x) && p !in Set(order);
    }
    if Acyclic(deps) { var _ := SomeoneFirst(deps, left); }
  }

  lemma SubsetSize(a: set<Id>, b: set<Id>)
    requires a <= b
    ensures |a| <= |b| && (|a| == |b| <==> a == b)
  {
    assert |b - a| == |b| - |a|;
    if |a| == |b| { assert b - a == {}; }
  }

  /** An empty queue: every node was processed, or the rest hold a cycle. */
  lemma KahnEnd(nodes: set<Id>, deps: Deps, order: seq<Id>, released: set<Id>, inDegree: map<Id, int>)
    requires NoDangling(nodes, deps) && Kahn(nodes, deps, order, [], released, inDegree)
    ensures |order| == |nodes| <==> Acyclic(deps)
  {
    assert Set([]) == {} && released == Set(order);
    SubsetSize(released, nodes);
    if released == nodes {
      assert forall x :: x in deps ==> x in released;
      OrderedIsAcyclic(deps, order);
    } else {
      LeftoversAreCyclic(nodes, deps, order, inDegree);
    }
  }

  /** Processes zero-in-degree nodes until none is left. */
  method Drain(nodes: set<Id>, ghost deps: Deps, inDegree: map<Id, int>, children: Children) returns (processed: nat)
    requires NoDangling(nodes, deps) && Graph(nodes, deps, inDegree, children)
    ensures processed == |nodes| <==> Acyclic(deps)
  {
    var queue, released := Roots(nodes, inDegree);
    var degrees := inDegree;
    ghost var order: seq<Id> := [];
    KahnStart(nodes, deps, queue, released, degrees);
    processed := 0;
    while queue != []
      invariant processed == |order| && Kahn(nodes, deps, order, queue, released, degrees)
      decreases |nodes| - |order|
    {
      var id := queue[0];
      assert queue == [id] + queue[1..];
      SubsetSize(released, nodes);
      queue, released, degrees := Release(nodes, deps, children, order, id, queue[1..], released, degrees);
      order := order + [id];
      processed := processed + 1;
    }
    KahnEnd(nodes, deps, order, released, degrees);
  }

  /** money.Validate, check by check. */
  method ValidateMoney(m: Option<Money>) returns (ok: bool)
    ensures ok <==> ValidAmount(m)
  {
    if m.None? { return false; }
    if m.value.currency == "" { return false; }
    ok := m.value.units != 0;
  }

  /** Checks every child's own spelling. */
  method CheckChildren(transfers: map<Id, Child>) returns (error: Option<DagError>)
    ensures error.None? <==> WellFormed(transfers)
    ensures error.Some? ==> error.value == WrongKey || error.value == BadAmount
    ensures error == Some(WrongKey) ==> exists k :: k in transfers && transfers[k].id != k
    ensures error == Some(BadAmount) ==> exists k :: k in transfers && !ValidAmount(transfers[k].amount)
  {
    var todo := transfers.Keys;
    while todo != {}
      invariant todo <= transfers.Keys
      invariant forall k :: k in transfers && k !in todo ==> transfers[k].id == k && ValidAmount(transfers[k].amount)
      decreases todo
    {
      var k :| k in todo;
      if transfers[k].id != k { return Some(WrongKey); }
      var ok := ValidateMoney(transfers[k].amount);
      if !ok { return Some(BadAmount); }
      todo := todo - {k};
    }
    error := None;
  }

  /** Accepts exactly the non-empty, narrow enough, well-formed requests with no
      dangling reference and no cycle, whatever order their maps are read in, and
      refuses every other for a fault it has. */
  method ValidateDAG(transfers: map<Id, Child>, deps: Deps) returns (error: Option<DagError>)
    ensures error.None? <==> Valid(transfers, deps)
    ensures error.Some? ==> Names(transfers, deps, error.value)
  {
    if |transfers| == 0 { return Some(Empty); }
    if |transfers| > MaxTransfersPerTransaction { return Some(TooWide); }
    error := CheckChildren(transfers);
    if error.Some? { return; }
    var inDegree, children;
    error, inDegree, children := BuildGraph(transfers.Keys, deps);
    if error.Some? { return; }
    var processed := Drain(transfers.Keys, deps, inDegree, children);
    if processed != |transfers| { return Some(Cyclic); }
  }

  // ---- Readiness scans -----------------------------------------------------

  method AreParentsDone(deps: Deps, completed: set<Id>, id: Id) returns (done: bool)
    ensures done <==> ParentsDone(deps, completed, id)
  {
    if id in deps {
      for i := 0 to |deps[id]|
        invariant forall j :: 0 <= j < i ==> deps[id][j] in completed
      {
        if deps[id][i] !in completed { return false; }
      }
    }
    done := true;
  }

  /** Every child that may be requested now, once each, in any order. */
  method ScanReadyToRun(nodes: set<Id>, deps: Deps, touched: set<Id>, completed: set<Id>) returns (ready: seq<Id>)
    ensures |ready| == |Set(ready)| && Set(ready) == ReadyToRun(nodes, deps, touched, completed)
  {
    ready := [];
    var todo := nodes;
    while todo != {}
      invariant todo <= nodes && |ready| == |Set(ready)|
      invariant Set(ready) == ReadyToRun(nodes - todo, deps, touched, completed)
      decreases todo
    {
      var id :| id in todo;
      if id !in touched {
        var done := AreParentsDone(deps, completed, id);
        if done {
          assert id !in Set(ready);
          SetSnoc(ready, id);
          ready := ready + [id];
        }
      }
      todo := todo - {id};
    }
    assert nodes - todo == nodes;
  }

  /** Whether a touched, unresolved child lists `id` as a parent. */
  method IsBlocked(deps: Deps, touched: set<Id>, resolved: set<Id>, id: Id) returns (blocked: bool)
    ensures blocked <==> !Unblocked(deps, touched, resolved, id)
  {
    var todo := deps.Keys;
    while todo != {}
      invariant todo <= deps.Keys
      invariant forall c :: c in deps.Keys - todo && c in touched && c !in resolved ==> id !in deps[c]
      decreases todo
    {
      var c :| c in todo;
      if c in touched && c !in resolved && id in deps[c] { return true; }
      todo := todo - {c};
    }
    blocked := false;
  }

  /** Every child that may be rolled back now, once each, in any order. */
  method ScanReadyToRollback(nodes: set<Id>, deps: Deps, touched: set<Id>, resolved: set<Id>, inFlight: set<Id>)
    returns (ready: seq<Id>)
    ensures |ready| == |Set(ready)| && Set(ready) == ReadyToRollback(nodes, deps, touched, resolved, inFlight)
  {
    ready := [];
    var todo := nodes;
    while todo != {}
      invariant todo <= nodes && |ready| == |Set(ready)|
      invariant Set(ready) == ReadyToRollback(nodes - todo, deps, touched, resolved, inFlight)
      decreases todo
    {
      var id :| id in todo;
      if id in touched && id !in resolved && id !in inFlight {
        var blocked := IsBlocked(deps, touched, resolved, id);
        if !blocked {
          assert id !in Set(ready);
          SetSnoc(ready, id);
          ready := ready + [id];
        }
      }
      todo := todo - {id};
    }
    assert nodes - todo == nodes;
  }
}
