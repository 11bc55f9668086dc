/**
 * The explicit-stack walk over a region tree
 * (patches/asupersync/src/app.rs:71-89, the same loop as runtime/state.rs:1871-1897), and
 * the stable sorts by depth that follow it.
 */
module RegionWalk {
  import opened Prelude
  import opened Regions

  datatype Node = Node(id: nat, depth: nat)

  function ChildNodes(s: Table, n: Node): seq<Node>
    requires n.id in s.regions
  {
    seq(|s.regions[n.id].children|, i requires 0 <= i < |s.regions[n.id].children| =>
        Node(s.regions[n.id].children[i], n.depth + 1))
  }

  lemma ChildNodesAreBelow(s: Table, n: Node)
    requires Forest(s) && n.id in s.regions
    ensures n.id < s.nextRegion
    ensures forall c :: c in ChildNodes(s, n) ==> c.id > n.id && c.id in s.regions && c.id in s.regions[n.id].children
  {
    assert RegionOk(s, n.id);
    forall c | c in ChildNodes(s, n) ensures c.id > n.id && c.id in s.regions {
      assert c.id in s.regions[n.id].children;
      assert RegionOk(s, c.id);
    }
  }

  /** The visits that a stack of pending nodes gives rise to, top of the stack first. */
  function Walk(s: Table, pending: seq<Node>, floor: nat): seq<Node>
    requires Forest(s) && forall n :: n in pending ==> n.id >= floor
    decreases if floor <= s.nextRegion then s.nextRegion - floor else 0, |pending|
  {
    if pending == [] then []
    else
      var rest, top := pending[..|pending| - 1], pending[|pending| - 1];
      if top.id !in s.regions then Walk(s, rest, floor)
      else
        ChildNodesAreBelow(s, top);
        [top] + Walk(s, ChildNodes(s, top), top.id + 1) + Walk(s, rest, floor)
  }

  function Tree(s: Table, root: nat): seq<Node>
    requires Forest(s)
  {
    Walk(s, [Node(root, 0)], 0)
  }

  lemma {:induction false} FloorIrrelevant(s: Table, pending: seq<Node>, floor: nat)
    requires Forest(s) && forall n :: n in pending ==> n.id >= floor
    ensures Walk(s, pending, floor) == Walk(s, pending, 0)
    decreases |pending|
  {
    if pending != [] {
      FloorIrrelevant(s, pending[..|pending| - 1], floor);
    }
  }

  lemma {:induction false} WalkAppend(s: Table, a: seq<Node>, b: seq<Node>)
    requires Forest(s)
    ensures Walk(s, a + b, 0) == Walk(s, b, 0) + Walk(s, a, 0)
    decreases |b|
  {
    if b == [] {
      assert a + b == a;
    } else {
      var init := b[..|b| - 1];
      assert (a + b)[..|a + b| - 1] == a + init;
      WalkAppend(s, a, init);
    }
  }

  /** One turn of the loop: the popped node is visited and its children are pushed. */
  lemma WalkTurn(s: Table, pending: seq<Node>)
    requires Forest(s) && pending != []
    ensures var rest, top := pending[..|pending| - 1], pending[|pending| - 1];
            Walk(s, pending, 0) == if top.id !in s.regions then Walk(s, rest, 0)
                                   else [top] + Walk(s, rest + ChildNodes(s, top), 0)
  {
    var rest, top := pending[..|pending| - 1], pending[|pending| - 1];
    if top.id in s.regions {
      ChildNodesAreBelow(s, top);
      FloorIrrelevant(s, ChildNodes(s, top), top.id + 1);
      WalkAppend(s, rest, ChildNodes(s, top));
      Assoc([top], Walk(s, ChildNodes(s, top), 0), Walk(s, rest, 0));
    }
  }

  // ------------------------------------------------------------ what the walk visits

  /** Below a child of `r` means one further below `r`. */
  lemma {:induction false} ChildStepsUp(s: Table, r: nat, c: nat, x: nat)
    requires Forest(s) && r in s.regions && c in s.regions[r].children && Under(s, c, x).Some?
    ensures Under(s, r, x) == Some(Under(s, c, x).value + 1)
    decreases x
  {
    assert RegionOk(s, r) && RegionOk(s, x) && RegionOk(s, c);
    UnderIsLater(s, c, x);
    if x != c {
      ChildStepsUp(s, r, c, s.regions[x].parent.value);
    } else {
      assert Under(s, r, r) == Some(0);
    }
  }

  /** The child of `r` through which `x` is reached. */
  lemma {:induction false} ThroughChild(s: Table, r: nat, x: nat) returns (c: nat)
    requires Forest(s) && x != r && Under(s, r, x).Some?
    ensures r in s.regions && c in s.regions[r].children && Under(s, c, x).Some?
    decreases x
  {
    assert RegionOk(s, x);
    UnderIsLater(s, r, x);
    var p := s.regions[x].parent.value;
    if p == r {
      c := x;
    } else {
      c := ThroughChild(s, r, p);
      assert RegionOk(s, r);
    }
  }

  /** Two regions above the same one lie on one line. */
  lemma {:induction false} Linear(s: Table, a: nat, b: nat, x: nat)
    requires Forest(s) && Under(s, a, x).Some? && Under(s, b, x).Some?
    ensures Under(s, a, b).Some? || Under(s, b, a).Some?
    decreases x
  {
    assert RegionOk(s, x);
    if x != a && x != b {
      Linear(s, a, b, s.regions[x].parent.value);
    }
  }

  /** `n` is where a walk from `p` gets, with the depth counted on from `p`. */
  predicate From(s: Table, p: Node, n: Node)
    requires Forest(s)
  {
    Under(s, p.id, n.id).Some? && n.depth == p.depth + Under(s, p.id, n.id).value
  }

  predicate FromAny(s: Table, pending: seq<Node>, n: Node)
    requires Forest(s)
  {
    exists i :: 0 <= i < |pending| && From(s, pending[i], n)
  }

  lemma FromSelfOrChildren(s: Table, p: Node, n: Node)
    requires Forest(s) && p.id in s.regions
    ensures From(s, p, n) <==> n == p || FromAny(s, ChildNodes(s, p), n)
  {
    var children := ChildNodes(s, p);
    if From(s, p, n) && n.id != p.id {
      var c := ThroughChild(s, p.id, n.id);
      ChildStepsUp(s, p.id, c, n.id);
      var i :| 0 <= i < |children| && s.regions[p.id].children[i] == c;
      assert From(s, children[i], n);
    }
    if FromAny(s, children, n) {
      var i :| 0 <= i < |children| && From(s, children[i], n);
      ChildStepsUp(s, p.id, children[i].id, n.id);
    }
  }

  lemma FromAnySplits(s: Table, a: seq<Node>, p: Node, n: Node)
    requires Forest(s)
    ensures FromAny(s, a + [p], n) <==> FromAny(s, a, n) || From(s, p, n)
  {
    if FromAny(s, a, n) {
      var i :| 0 <= i < |a| && From(s, a[i], n);
      assert From(s, (a + [p])[i], n);
    }
    if From(s, p, n) {
      assert From(s, (a + [p])[|a|], n);
    }
  }

  lemma VisitMembers(top: Node, a: seq<Node>, b: seq<Node>, n: Node, inA: bool, inB: bool)
    requires (n in a <==> inA) && (n in b <==> inB)
    ensures n in [top] + a + b <==> n == top || inA || inB
  {
  }

  lemma UnvisitedTop(s: Table, top: Node, n: Node)
    requires Forest(s) && top.id !in s.regions
    ensures !From(s, top, n)
  {
    if Under(s, top.id, n.id).Some? {
      UnderIsLater(s, top.id, n.id);
    }
  }

  /** The walk visits exactly the regions below the pending ones, each with its true depth. */
  lemma {:induction false} WalkVisits(s: Table, pending: seq<Node>, floor: nat, n: Node)
    requires Forest(s) && forall p :: p in pending ==> p.id >= floor
    ensures n in Walk(s, pending, floor) <==> FromAny(s, pending, n)
    decreases if floor <= s.nextRegion then s.nextRegion - floor else 0, |pending|
  {
    if pending != [] {
      var rest, top := pending[..|pending| - 1], pending[|pending| - 1];
      assert pending == rest + [top];
      WalkVisits(s, rest, floor, n);
      FromAnySplits(s, rest, top, n);
      if top.id in s.regions {
        var children := ChildNodes(s, top);
        ChildNodesAreBelow(s, top);
        WalkVisits(s, children, top.id + 1, n);
        FromSelfOrChildren(s, top, n);
        VisitMembers(top, Walk(s, children, top.id + 1), Walk(s, rest, floor), n,
                     FromAny(s, children, n), FromAny(s, rest, n));
      } else {
        UnvisitedTop(s, top, n);
      }
    }
  }

  predicate NoRepeats(nodes: seq<Node>) { forall i, j :: 0 <= i < j < |nodes| ==> nodes[i].id != nodes[j].id }

  /** No pending region lies below another. */
  predicate Apart(s: Table, pending: seq<Node>)
    requires Forest(s)
  {
    forall i, j :: 0 <= i < |pending| && 0 <= j < |pending| && i != j ==> Under(s, pending[i].id, pending[j].id).None?
  }

  lemma ChildrenAreApart(s: Table, p: Node)
    requires Forest(s) && p.id in s.regions
    ensures Apart(s, ChildNodes(s, p))
  {
    var children := ChildNodes(s, p);
    assert RegionOk(s, p.id);
    forall i, j | 0 <= i < |children| && 0 <= j < |children| && i != j
      ensures Under(s, children[i].id, children[j].id).None?
    {
      assert children[i].id in s.regions[p.id].children && children[j].id in s.regions[p.id].children;
      assert RegionOk(s, children[i].id);
      if Under(s, children[i].id, children[j].id).Some? {
        UnderIsLater(s, children[i].id, p.id);
      }
    }
  }

  /** What is visited below a node is not visited below another that is apart from it. */
  lemma ApartStaysApart(s: Table, a: Node, b: Node, x: nat)
    requires Forest(s) && Under(s, a.id, b.id).None? && Under(s, b.id, a.id).None?
    ensures Under(s, a.id, x).None? || Under(s, b.id, x).None?
  {
    if Under(s, a.id, x).Some? && Under(s, b.id, x).Some? {
      Linear(s, a.id, b.id, x);
    }
  }

  lemma BelowIsUnder(s: Table, top: Node, n: Node)
    requires Forest(s) && top.id in s.regions && n in Walk(s, ChildNodes(s, top), 0)
    ensures n.id > top.id && Under(s, top.id, n.id).Some?
  {
    ChildNodesAreBelow(s, top);
    WalkVisits(s, ChildNodes(s, top), 0, n);
    var i :| 0 <= i < |ChildNodes(s, top)| && From(s, ChildNodes(s, top)[i], n);
    ChildStepsUp(s, top.id, ChildNodes(s, top)[i].id, n.id);
    UnderIsLater(s, ChildNodes(s, top)[i].id, n.id);
  }

  lemma BesideIsNotUnder(s: Table, rest: seq<Node>, top: Node, n: Node)
    requires Forest(s) && Apart(s, rest + [top]) && n in Walk(s, rest, 0)
    ensures Under(s, top.id, n.id).None?
  {
    WalkVisits(s, rest, 0, n);
    var i :| 0 <= i < |rest| && From(s, rest[i], n);
    assert (rest + [top])[i] == rest[i] && (rest + [top])[|rest|] == top;
    ApartStaysApart(s, rest[i], top, n.id);
  }

  lemma FewerAreApart(s: Table, rest: seq<Node>, top: Node)
    requires Forest(s) && Apart(s, rest + [top])
    ensures Apart(s, rest)
  {
    forall i, j | 0 <= i < |rest| && 0 <= j < |rest| && i != j ensures Under(s, rest[i].id, rest[j].id).None? {
      assert (rest + [top])[i] == rest[i] && (rest + [top])[j] == rest[j];
    }
  }

  lemma {:induction false} VisitsOnce(s: Table, pending: seq<Node>, floor: nat)
    requires Forest(s) && Apart(s, pending) && forall p :: p in pending ==> p.id >= floor
    ensures NoRepeats(Walk(s, pending, floor))
    decreases if floor <= s.nextRegion then s.nextRegion - floor else 0, |pending|
  {
    if pending == [] {
      assert Walk(s, pending, floor) == [];
    } else {
      var rest, top := pending[..|pending| - 1], pending[|pending| - 1];
      assert pending == rest + [top];
      FewerAreApart(s, rest, top);
      VisitsOnce(s, rest, floor);
      FloorIrrelevant(s, rest, floor);
      WalkUnfolds(s, rest, top, floor);
      if top.id in s.regions {
        ChildNodesAreBelow(s, top);
        ChildrenAreApart(s, top);
        VisitsOnce(s, ChildNodes(s, top), top.id + 1);
        FloorIrrelevant(s, ChildNodes(s, top), top.id + 1);
        VisitAndBelow(s, rest, top);
      }
    }
  }

  lemma WalkUnfolds(s: Table, rest: seq<Node>, top: Node, floor: nat)
    requires Forest(s) && forall p :: p in rest + [top] ==> p.id >= floor
    ensures Walk(s, rest + [top], floor)
         == if top.id !in s.regions then Walk(s, rest, 0)
            else [top] + Walk(s, ChildNodes(s, top), 0) + Walk(s, rest, 0)
  {
    var pending := rest + [top];
    assert pending[..|pending| - 1] == rest && top in pending && forall p :: p in rest ==> p in pending;
    FloorIrrelevant(s, rest, floor);
    if top.id in s.regions {
      ChildNodesAreBelow(s, top);
      FloorIrrelevant(s, ChildNodes(s, top), top.id + 1);
    }
  }

  lemma VisitAndBelow(s: Table, rest: seq<Node>, top: Node)
    requires Forest(s) && Apart(s, rest + [top]) && top.id in s.regions
    requires NoRepeats(Walk(s, ChildNodes(s, top), 0)) && NoRepeats(Walk(s, rest, 0))
    ensures NoRepeats([top] + Walk(s, ChildNodes(s, top), 0) + Walk(s, rest, 0))
  {
    var below, beside := Walk(s, ChildNodes(s, top), 0), Walk(s, rest, 0);
    forall n | n in below ensures n.id > top.id && Under(s, top.id, n.id).Some? { BelowIsUnder(s, top, n); }
    forall n | n in beside ensures Under(s, top.id, n.id).None? { BesideIsNotUnder(s, rest, top, n); }
    assert Under(s, top.id, top.id) == Some(0);
    JoinNoRepeats([top], below);
    JoinNoRepeats([top] + below, beside);
  }

  lemma JoinNoRepeats(a: seq<Node>, b: seq<Node>)
    requires NoRepeats(a) && NoRepeats(b)
    requires forall n, m :: n in a && m in b ==> n.id != m.id
    ensures NoRepeats(a + b)
  {
  }

  /** From one root: every region of its tree once, with its distance from the root. */
  lemma TreeIsExact(s: Table, root: nat)
    requires Forest(s)
    ensures NoRepeats(Tree(s, root))
    ensures forall n :: n in Tree(s, root) <==> Under(s, root, n.id) == Some(n.depth)
  {
    var start := [Node(root, 0)];
    VisitsOnce(s, start, 0);
    forall n ensures n in Tree(s, root) <==> Under(s, root, n.id) == Some(n.depth) {
      WalkVisits(s, start, 0, n);
      assert start[0] == Node(root, 0);
    }
  }

  // ------------------------------------------------------------ sorting by depth

  function Level(nodes: seq<Node>, d: nat): seq<Node> {
    if nodes == [] then []
    else Level(nodes[..|nodes| - 1], d) + if nodes[|nodes| - 1].depth == d then [nodes[|nodes| - 1]] else []
  }

  /** The nodes of depth below `d`, deepest first, otherwise in order. */
  function Descending(nodes: seq<Node>, d: nat): seq<Node> {
    if d == 0 then [] else Level(nodes, d - 1) + Descending(nodes, d - 1)
  }

  function Ascending(nodes: seq<Node>, d: nat): seq<Node> {
    if d == 0 then [] else Ascending(nodes, d - 1) + Level(nodes, d - 1)
  }

  function Height(nodes: seq<Node>): nat {
    if nodes == [] then 0
    else
      var h := Height(nodes[..|nodes| - 1]);
      if nodes[|nodes| - 1].depth < h then h else nodes[|nodes| - 1].depth + 1
  }

  /** `sort_by_key(|(_, depth)| Reverse(*depth))`, a stable sort. */
  function DeepestFirst(nodes: seq<Node>): seq<Node> { Descending(nodes, Height(nodes)) }

  /** `sort_by_key(|node| node.depth)`. */
  function ShallowestFirst(nodes: seq<Node>): seq<Node> { Ascending(nodes, Height(nodes)) }

  lemma {:induction false} LevelMembers(nodes: seq<Node>, d: nat)
    ensures forall n :: n in Level(nodes, d) <==> n in nodes && n.depth == d
    ensures NoRepeats(nodes) ==> NoRepeats(Level(nodes, d))
  {
    if nodes != [] {
      var init, last := nodes[..|nodes| - 1], nodes[|nodes| - 1];
      assert nodes == init + [last];
      LevelMembers(init, d);
      assert NoRepeats(nodes) ==> NoRepeats(init) && forall n :: n in init ==> n.id != last.id;
    }
  }

  lemma {:induction false} HeightBounds(nodes: seq<Node>)
    ensures forall n :: n in nodes ==> n.depth < Height(nodes)
  {
    if nodes != [] {
      HeightBounds(nodes[..|nodes| - 1]);
      assert nodes == nodes[..|nodes| - 1] + [nodes[|nodes| - 1]];
    }
  }

  lemma LevelHas(nodes: seq<Node>, d: nat, n: Node)
    ensures n in Level(nodes, d) <==> n in nodes && n.depth == d
  {
    LevelMembers(nodes, d);
  }

  lemma JoinMembers(a: seq<Node>, b: seq<Node>, n: Node, inA: bool, inB: bool)
    requires (n in a <==> inA) && (n in b <==> inB)
    ensures n in a + b <==> inA || inB
  {
  }

  lemma {:induction false} DescendingMembers(nodes: seq<Node>, d: nat, n: Node)
    ensures n in Descending(nodes, d) <==> n in nodes && n.depth < d
  {
    if d > 0 {
      DescendingMembers(nodes, d - 1, n);
      LevelHas(nodes, d - 1, n);
      JoinMembers(Level(nodes, d - 1), Descending(nodes, d - 1), n,
                  n in nodes && n.depth == d - 1, n in nodes && n.depth < d - 1);
    } else {
      assert Descending(nodes, d) == [];
    }
  }

  lemma {:induction false} AscendingMembers(nodes: seq<Node>, d: nat, n: Node)
    ensures n in Ascending(nodes, d) <==> n in nodes && n.depth < d
  {
    if d > 0 {
      AscendingMembers(nodes, d - 1, n);
      LevelHas(nodes, d - 1, n);
      JoinMembers(Ascending(nodes, d - 1), Level(nodes, d - 1), n,
                  n in nodes && n.depth < d - 1, n in nodes && n.depth == d - 1);
    } else {
      assert Ascending(nodes, d) == [];
    }
  }

  lemma {:induction false} LevelOfJoin(a: seq<Node>, b: seq<Node>, d: nat)
    ensures Level(a + b, d) == Level(a, d) + Level(b, d)
    decreases |b|
  {
    if b == [] {
      assert a + b == a;
    } else {
      LevelOfJoin(a, b[..|b| - 1], d);
      assert (a + b)[..|a + b| - 1] == a + b[..|b| - 1];
    }
  }

  lemma {:induction false} LevelOfLevel(nodes: seq<Node>, e: nat, d: nat)
    ensures Level(Level(nodes, e), d) == if d == e then Level(nodes, d) else []
  {
    if nodes != [] {
      var init, last := nodes[..|nodes| - 1], nodes[|nodes| - 1];
      LevelOfLevel(init, e, d);
      LevelOfJoin(Level(init, e), if last.depth == e then [last] else [], d);
      LevelOfOne(last, d);
    }
  }

  lemma LevelOfOne(n: Node, d: nat)
    ensures Level([n], d) == if n.depth == d then [n] else []
  {
    assert [n][..0] == [];
  }

  /** The nodes of depth `d`, if it is below `h`. */
  function LevelBelow(nodes: seq<Node>, h: nat, d: nat): seq<Node> { if d < h then Level(nodes, d) else [] }

  lemma NextLevel(nodes: seq<Node>, h: nat, d: nat)
    requires h > 0
    ensures Level(Level(nodes, h - 1), d) + LevelBelow(nodes, h - 1, d) == LevelBelow(nodes, h, d)
    ensures LevelBelow(nodes, h - 1, d) + Level(Level(nodes, h - 1), d) == LevelBelow(nodes, h, d)
  {
    LevelOfLevel(nodes, h - 1, d);
  }

  lemma {:induction false} DescendingLevels(nodes: seq<Node>, h: nat, d: nat)
    ensures Level(Descending(nodes, h), d) == LevelBelow(nodes, h, d)
    decreases h
  {
    if h > 0 {
      DescendingLevels(nodes, h - 1, d);
      LevelOfJoin(Level(nodes, h - 1), Descending(nodes, h - 1), d);
      NextLevel(nodes, h, d);
    }
  }

  lemma {:induction false} AscendingLevels(nodes: seq<Node>, h: nat, d: nat)
    ensures Level(Ascending(nodes, h), d) == LevelBelow(nodes, h, d)
    decreases h
  {
    if h > 0 {
      AscendingLevels(nodes, h - 1, d);
      LevelOfJoin(Ascending(nodes, h - 1), Level(nodes, h - 1), d);
      NextLevel(nodes, h, d);
    }
  }

  lemma LevelAbove(nodes: seq<Node>, d: nat)
    requires d >= Height(nodes)
    ensures Level(nodes, d) == []
  {
    HeightBounds(nodes);
    if Level(nodes, d) != [] {
      LevelHas(nodes, d, Level(nodes, d)[0]);
    }
  }

  /** Both sorts are stable: nodes of one depth stay in their order. */
  lemma SortsAreStable(nodes: seq<Node>, d: nat)
    ensures Level(DeepestFirst(nodes), d) == Level(nodes, d)
    ensures Level(ShallowestFirst(nodes), d) == Level(nodes, d)
  {
    DescendingLevels(nodes, Height(nodes), d);
    AscendingLevels(nodes, Height(nodes), d);
    if d >= Height(nodes) {
      LevelAbove(nodes, d);
    }
  }

  predicate NonIncreasing(nodes: seq<Node>) { forall i, j :: 0 <= i < j < |nodes| ==> nodes[i].depth >= nodes[j].depth }

  lemma JoinSorted(a: seq<Node>, b: seq<Node>, d: nat)
    requires NonIncreasing(b) && (forall n :: n in a ==> n.depth == d) && forall n :: n in b ==> n.depth < d
    requires NoRepeats(a) && NoRepeats(b) && forall n, m :: n in a && m in b ==> n.id != m.id
    ensures NonIncreasing(a + b) && NoRepeats(a + b)
  {
  }

  lemma LevelsAreApart(nodes: seq<Node>, d: nat)
    requires NoRepeats(nodes)
    ensures forall n :: n in Level(nodes, d) ==> n.depth == d
    ensures forall n :: n in Descending(nodes, d) ==> n.depth < d
    ensures forall n, m :: n in Level(nodes, d) && m in Descending(nodes, d) ==> n.id != m.id
  {
    forall n | n in Level(nodes, d) ensures n in nodes && n.depth == d { LevelHas(nodes, d, n); }
    forall m | m in Descending(nodes, d) ensures m in nodes && m.depth < d { DescendingMembers(nodes, d, m); }
  }

  lemma LevelNoRepeats(nodes: seq<Node>, d: nat)
    requires NoRepeats(nodes)
    ensures NoRepeats(Level(nodes, d))
  {
    LevelMembers(nodes, d);
  }

  lemma LevelGoesFirst(nodes: seq<Node>, d: nat)
    requires NoRepeats(nodes) && NonIncreasing(Descending(nodes, d)) && NoRepeats(Descending(nodes, d))
    ensures var all := Level(nodes, d) + Descending(nodes, d); NonIncreasing(all) && NoRepeats(all)
  {
    LevelNoRepeats(nodes, d);
    LevelsAreApart(nodes, d);
    JoinSorted(Level(nodes, d), Descending(nodes, d), d);
  }

  lemma {:induction false} DescendingIsSorted(nodes: seq<Node>, d: nat)
    requires NoRepeats(nodes)
    ensures NonIncreasing(Descending(nodes, d)) && NoRepeats(Descending(nodes, d))
  {
    if d == 0 {
      assert Descending(nodes, d) == [];
    } else {
      DescendingIsSorted(nodes, d - 1);
      LevelGoesFirst(nodes, d - 1);
      assert Descending(nodes, d) == Level(nodes, d - 1) + Descending(nodes, d - 1);
    }
  }

  /** No region comes before one that lies below it. */
  predicate BelowFirst(s: Table, order: seq<Node>)
    requires Forest(s)
  {
    forall i, j :: 0 <= i < j < |order| ==> Under(s, order[i].id, order[j].id).None?
  }

  lemma {:induction false} DepthsAdd(s: Table, root: nat, a: nat, b: nat)
    requires Forest(s) && Under(s, root, a).Some? && Under(s, a, b).Some?
    ensures Under(s, root, b) == Some(Under(s, root, a).value + Under(s, a, b).value)
    decreases b
  {
    assert RegionOk(s, b);
    UnderIsLater(s, root, a);
    UnderIsLater(s, a, b);
    if b != a {
      DepthsAdd(s, root, a, s.regions[b].parent.value);
    }
  }

  /** Deepest first keeps the regions, each once, and treats all that lie below a region before it. */
  lemma DescendantsComeFirst(s: Table, root: nat)
    requires Forest(s)
    ensures var order := DeepestFirst(Tree(s, root));
            && NoRepeats(order)
            && (forall n :: n in order <==> Under(s, root, n.id) == Some(n.depth))
            && BelowFirst(s, order)
  {
    var nodes := Tree(s, root);
    var order := DeepestFirst(nodes);
    TreeIsExact(s, root);
    HeightBounds(nodes);
    DescendingIsSorted(nodes, Height(nodes));
    forall n ensures n in order <==> n in nodes { DescendingMembers(nodes, Height(nodes), n); }
    forall i, j | 0 <= i < j < |order| ensures Under(s, order[i].id, order[j].id).None? {
      assert order[i] in order && order[j] in order && order[i].depth >= order[j].depth;
      if Under(s, order[i].id, order[j].id).Some? {
        DepthsAdd(s, root, order[i].id, order[j].id);
      }
    }
  }
}
