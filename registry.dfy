/**
 * The tool registry: a dictionary from tool name to node that ignores case,
 * cleared and refilled by a pre-order walk over the loaded graph, and updated
 * in place when a tool is created.
 */
module ToolRegistry {
  import opened Common
  import opened Text
  import opened ObjectGraph

  /** A stored entry keeps the key as it was first inserted. */
  datatype Entry = Entry(key: string, node: Value)

  /**
   * The dictionary's contents: entries by case-folded key, and the folded keys
   * in insertion order (the order the dictionary enumerates them in, since
   * entries are never removed one by one).
   */
  datatype Registry = Registry(index: map<string, Entry>, order: seq<string>)

  const Empty := Registry(map[], [])

  ghost predicate WellFormed(r: Registry) {
    && (forall k :: k in r.index ==> FoldString(r.index[k].key) == k)
    && (forall k :: k in r.index <==> k in r.order)
    && (forall i, j :: 0 <= i < j < |r.order| ==> r.order[i] != r.order[j])
  }

  /** FindToolByName: the node stored under a name equal ignoring case; nothing for a null name. */
  function Find(r: Registry, name: Option<string>): Option<Value> {
    if name.Some? && FoldString(name.value) in r.index then Some(r.index[FoldString(name.value)].node) else None
  }

  /** `if (!ContainsKey(name)) cache[name] = node`: the first node seen under a name stays. */
  function AddIfAbsent(r: Registry, name: string, node: Value): (r': Registry)
    requires WellFormed(r)
    ensures WellFormed(r')
  {
    var k := FoldString(name);
    if k in r.index then r
    else
      FoldStringIdempotent(name);
      Registry(r.index[k := Entry(name, node)], r.order + [k])
  }

  /** `cache[name] = node`: the node replaces any entry under a name equal ignoring case, keeping that entry's key and position. */
  function Put(r: Registry, name: string, node: Value): (r': Registry)
    requires WellFormed(r)
    ensures WellFormed(r')
  {
    var k := FoldString(name);
    if k in r.index then Registry(r.index[k := r.index[k].(node := node)], r.order)
    else
      FoldStringIdempotent(name);
      Registry(r.index[k := Entry(name, node)], r.order + [k])
  }

  function Count(r: Registry): nat {
    |r.order|
  }

  /** The entries in enumeration order. */
  function Entries(r: Registry): (es: seq<Entry>)
    requires WellFormed(r)
    ensures |es| == Count(r)
  {
    seq(|r.order|, i requires 0 <= i < |r.order| && WellFormed(r) => r.index[r.order[i]])
  }

  lemma FindAfterAdd(r: Registry, name: string, node: Value, query: string)
    requires WellFormed(r)
    ensures Find(AddIfAbsent(r, name, node), Some(query)) ==
      if SameName(query, name) && Find(r, Some(name)).None? then Some(node) else Find(r, Some(query))
  {
  }

  lemma FindAfterPut(r: Registry, name: string, node: Value, query: string)
    requires WellFormed(r)
    ensures Find(Put(r, name, node), Some(query)) == if SameName(query, name) then Some(node) else Find(r, Some(query))
  {
  }

  // ---------------------------------------------------------------------------
  // The traversal
  // ---------------------------------------------------------------------------

  predicate IsToolShape(s: Shape) {
    s.Tool? || s.ToolGroup? || s.ToolBlock?
  }

  /** The properties called exactly `name` (a case-sensitive GetProperty). */
  function NamedExactly(props: seq<Prop>, name: string): (r: seq<Prop>)
    ensures forall p :: p in r ==> p in props && p.name == name
  {
    if props == [] then []
    else (if props[0].name == name then [props[0]] else []) + NamedExactly(props[1..], name)
  }

  /** The property called exactly `Name`, when there is exactly one (two would make the lookup throw). */
  function NameProperty(props: seq<Prop>): Option<Prop> {
    var named := NamedExactly(props, "Name");
    if |named| == 1 then Some(named[0]) else None
  }

  /**
   * The name a node is registered under; None for a tool or job whose Name is
   * null (inserting a null key throws and aborts the load). A getter that throws,
   * a missing Name and a null Name on any other object all give "Unnamed".
   */
  function NodeName(h: Heap, v: Value): Option<string> {
    match ObjectAt(h, v)
    case None => Some("Unnamed")
    case Some(o) =>
      var toolOrJob := IsToolShape(o.shape) || o.shape.Job?;
      match NameProperty(o.props)
      case None => Some("Unnamed")
      case Some(p) =>
        match p.read
        case Throws(_) => Some("Unnamed")
        case Got(Null) => if toolOrJob then None else Some("Unnamed")
        case Got(n) => Some(Display(h, n))
  }

  /** The items of a collection value; a null or non-collection value has none. */
  function ItemsOf(h: Heap, v: Value): seq<Value> {
    match ObjectAt(h, v)
    case Some(o) => o.items.GetOr([])
    case None => []
  }

  /**
   * The nodes the traversal descends into: a manager's jobs, a job's vision
   * tool, the Tools of a group or block that has them, and otherwise the tool
   * and job items of an enumerable object.
   */
  function Children(h: Heap, v: Value): seq<Value> {
    match ObjectAt(h, v)
    case None => []
    case Some(o) =>
      match o.shape
      case JobManager(jobs) => jobs
      case Job => [Member(o, "VisionTool")]
      case _ =>
        if (o.shape.ToolGroup? || o.shape.ToolBlock?) && Member(o, "Tools") != Null then ItemsOf(h, Member(o, "Tools"))
        else ToolsAndJobs(h, o.items.GetOr([]))
  }

  function ToolsAndJobs(h: Heap, items: seq<Value>): (r: seq<Value>)
    ensures forall x :: x in r ==> x in items
  {
    if items == [] then []
    else
      var o := ObjectAt(h, items[0]);
      (if o.Some? && (IsToolShape(o.value.shape) || o.value.shape.Job?) then [items[0]] else [])
      + ToolsAndJobs(h, items[1..])
  }

  datatype Visit = Visit(name: Option<string>, node: Value)

  /**
   * The pre-order sequence of visits from `v`. The graph may contain cycles
   * through linked values, so the depth is bounded by `fuel`.
   */
  function Visits(h: Heap, v: Value, fuel: nat): seq<Visit>
    decreases fuel, 0, 0
  {
    if fuel == 0 || v == Null then []
    else [Visit(NodeName(h, v), v)] + VisitsAll(h, Children(h, v), fuel - 1)
  }

  function VisitsAll(h: Heap, vs: seq<Value>, fuel: nat): seq<Visit>
    decreases fuel, 1, |vs|
  {
    if vs == [] then [] else VisitsAll(h, vs[..|vs| - 1], fuel) + Visits(h, vs[|vs| - 1], fuel)
  }

  lemma {:induction false} VisitsAllAppend(h: Heap, a: seq<Value>, b: seq<Value>, fuel: nat)
    ensures VisitsAll(h, a + b, fuel) == VisitsAll(h, a, fuel) + VisitsAll(h, b, fuel)
    decreases |b|
  {
    if b == [] {
      assert a + b == a;
    } else {
      var b', x := b[..|b| - 1], b[|b| - 1];
      VisitsAllAppend(h, a, b', fuel);
      assert VisitsAll(h, a + b, fuel) == VisitsAll(h, a + b', fuel) + Visits(h, x, fuel) by {
        assert (a + b)[..|a + b| - 1] == a + b';
        assert (a + b)[|a + b| - 1] == x;
      }
      AppendAssoc(VisitsAll(h, a, fuel), VisitsAll(h, b', fuel), Visits(h, x, fuel));
    }
  }

  /** A registry being filled, and whether an insertion has thrown. */
  datatype Build = Build(registry: Registry, failed: bool)

  /** Inserting the visits in order, first name wins, stopping at the first null name. */
  function Record(r: Registry, vs: seq<Visit>): (b: Build)
    requires WellFormed(r)
    ensures WellFormed(b.registry)
    decreases |vs|
  {
    if vs == [] then Build(r, false)
    else match vs[0].name
      case None => Build(r, true)
      case Some(n) => Record(AddIfAbsent(r, n, vs[0].node), vs[1..])
  }

  /** The registry a load builds from a root. */
  function Rebuild(h: Heap, root: Value): (b: Build)
    ensures WellFormed(b.registry)
  {
    Record(Empty, Visits(h, root, |h| + 1))
  }

  lemma {:induction false} RecordAppend(r: Registry, xs: seq<Visit>, ys: seq<Visit>)
    requires WellFormed(r)
    ensures Record(r, xs + ys) ==
      if Record(r, xs).failed then Record(r, xs) else Record(Record(r, xs).registry, ys)
    decreases |xs|
  {
    if xs != [] {
      assert (xs + ys)[0] == xs[0];
      assert (xs + ys)[1..] == xs[1..] + ys;
      if xs[0].name.Some? {
        RecordAppend(AddIfAbsent(r, xs[0].name.value, xs[0].node), xs[1..], ys);
      }
    } else {
      assert xs + ys == ys;
    }
  }

  /** The visits before the first null name: those an aborted load still inserted. */
  function Completed(vs: seq<Visit>): (c: seq<Visit>)
    ensures |c| <= |vs| && c == vs[..|c|]
    ensures forall i :: 0 <= i < |c| ==> c[i].name.Some?
  {
    if vs == [] || vs[0].name.None? then [] else [vs[0]] + Completed(vs[1..])
  }

  /** The node of the first visit whose name equals `query` ignoring case. */
  function FirstNamed(vs: seq<Visit>, query: string): Option<Value>
    requires forall i :: 0 <= i < |vs| ==> vs[i].name.Some?
  {
    if vs == [] then None
    else if SameName(vs[0].name.value, query) then Some(vs[0].node)
    else FirstNamed(vs[1..], query)
  }

  /**
   * First-seen wins: after inserting a sequence of visits, a name finds what it
   * found before, or else the first completed visit under an equal name.
   */
  lemma {:induction false} RecordFindsFirst(r: Registry, vs: seq<Visit>, query: string)
    requires WellFormed(r)
    ensures Find(Record(r, vs).registry, Some(query)) ==
      if Find(r, Some(query)).Some? then Find(r, Some(query)) else FirstNamed(Completed(vs), query)
    decreases |vs|
  {
    if vs != [] && vs[0].name.Some? {
      var n := vs[0].name.value;
      var r1 := AddIfAbsent(r, n, vs[0].node);
      RecordFindsFirst(r1, vs[1..], query);
      FindAfterAdd(r, n, vs[0].node, query);
      assert Completed(vs) == [vs[0]] + Completed(vs[1..]);
      SameNameIsEquivalence(query, n, n);
      SameNameIsEquivalence(n, query, query);
    }
  }

  /** A load fails exactly when some visit has a null name. */
  lemma {:induction false} RecordFailsOnNullName(r: Registry, vs: seq<Visit>)
    requires WellFormed(r)
    ensures Record(r, vs).failed <==> exists i :: 0 <= i < |vs| && vs[i].name.None?
    decreases |vs|
  {
    if vs != [] && vs[0].name.Some? {
      RecordFailsOnNullName(AddIfAbsent(r, vs[0].name.value, vs[0].node), vs[1..]);
      if exists i :: 0 <= i < |vs| && vs[i].name.None? {
        var i :| 0 <= i < |vs| && vs[i].name.None?;
        assert vs[1..][i - 1] == vs[i];
      }
    }
  }

  /**
   * Pre-order: every visited node is non-null and is either the root or a
   * child of a node visited before it; nothing outside the child edges is
   * reached.
   */
  ghost predicate ParentFirst(h: Heap, vs: seq<Visit>, roots: seq<Value>) {
    PreOrder(vs, roots, ChildrenIn(h))
  }

  /** The child edges of a heap, as a function. */
  function ChildrenIn(h: Heap): Value -> seq<Value> {
    v => Children(h, v)
  }

  /** Pre-order with respect to any child relation `kids`. */
  ghost predicate PreOrder(vs: seq<Visit>, roots: seq<Value>, kids: Value -> seq<Value>) {
    forall i :: 0 <= i < |vs| ==>
      vs[i].node != Null
      && (vs[i].node in roots || exists j :: 0 <= j < i && vs[i].node in kids(vs[j].node))
  }

  lemma {:induction false} VisitsParentFirst(h: Heap, v: Value, fuel: nat)
    ensures ParentFirst(h, Visits(h, v, fuel), [v])
    decreases fuel, 0, 0
  {
    if fuel > 0 && v != Null {
      VisitsAllParentFirst(h, Children(h, v), fuel - 1);
      assert ChildrenIn(h)(v) == Children(h, v);
      PreOrderCons(ChildrenIn(h), Visit(NodeName(h, v), v), VisitsAll(h, Children(h, v), fuel - 1));
    }
  }

  lemma {:induction false} VisitsAllParentFirst(h: Heap, vs: seq<Value>, fuel: nat)
    ensures ParentFirst(h, VisitsAll(h, vs, fuel), vs)
    decreases fuel, 1, |vs|
  {
    if vs != [] {
      var init := vs[..|vs| - 1];
      var x := vs[|vs| - 1];
      VisitsAllParentFirst(h, init, fuel);
      VisitsParentFirst(h, x, fuel);
      PreOrderAppend(ChildrenIn(h), VisitsAll(h, init, fuel), Visits(h, x, fuel), init, x);
      assert init + [x] == vs;
    }
  }

  /** A visit of a non-null root followed by visits rooted at its children is in pre-order from that root. */
  lemma PreOrderCons(kids: Value -> seq<Value>, first: Visit, rest: seq<Visit>)
    requires first.node != Null && PreOrder(rest, kids(first.node), kids)
    ensures PreOrder([first] + rest, [first.node], kids)
  {
    var vs := [first] + rest;
    forall i | 0 <= i < |vs|
      ensures vs[i].node != Null
      ensures vs[i].node in [first.node] || exists j :: 0 <= j < i && vs[i].node in kids(vs[j].node)
    {
      if i > 0 {
        assert vs[i] == rest[i - 1];
        if rest[i - 1].node in kids(first.node) {
          assert vs[0] == first;
        } else {
          var j :| 0 <= j < i - 1 && rest[i - 1].node in kids(rest[j].node);
          assert vs[j + 1] == rest[j];
        }
      }
    }
  }

  /** Pre-order walks from `init` and then from `x` form a pre-order walk from `init + [x]`. */
  lemma PreOrderAppend(kids: Value -> seq<Value>, a: seq<Visit>, b: seq<Visit>, init: seq<Value>, x: Value)
    requires PreOrder(a, init, kids) && PreOrder(b, [x], kids)
    ensures PreOrder(a + b, init + [x], kids)
  {
    var all := a + b;
    forall i | 0 <= i < |all|
      ensures all[i].node != Null
      ensures all[i].node in init + [x] || exists j :: 0 <= j < i && all[i].node in kids(all[j].node)
    {
      if i < |a| {
        assert all[i] == a[i];
        if a[i].node !in init {
          var j :| 0 <= j < i && a[i].node in kids(a[j].node);
          assert all[j] == a[j];
        }
      } else {
        assert all[i] == b[i - |a|];
        if b[i - |a|].node !in [x] {
          var j :| 0 <= j < i - |a| && b[i - |a|].node in kids(b[j].node);
          assert all[j + |a|] == b[j];
        }
      }
    }
  }

  /** A plain object, a script host or a tool that is not a collection has nothing to descend into. */
  lemma LeavesHaveNoChildren(h: Heap, v: Value)
    requires ObjectAt(h, v).Some?
    requires var o := ObjectAt(h, v).value; (o.shape.Plain? || o.shape.Tool? || o.shape.ScriptHost?) && o.items.None?
    ensures Children(h, v) == []
  {
  }

  lemma {:induction false} VisitsAllSnoc(h: Heap, cs: seq<Value>, i: nat, fuel: nat)
    requires i < |cs|
    ensures VisitsAll(h, cs[..i + 1], fuel) == VisitsAll(h, cs[..i], fuel) + Visits(h, cs[i], fuel)
  {
    assert cs[..i + 1][..i] == cs[..i];
  }

  /** The visit of a node itself: a null name fails at once, any other is inserted if absent. */
  lemma FirstVisit(start: Registry, h: Heap, v: Value, fuel: nat)
    requires WellFormed(start) && fuel > 0 && v != Null
    ensures Visits(h, v, fuel) == [Visit(NodeName(h, v), v)] + VisitsAll(h, Children(h, v), fuel - 1)
    ensures NodeName(h, v).None? ==> Record(start, Visits(h, v, fuel)) == Build(start, true)
    ensures NodeName(h, v).Some? ==>
      Record(start, [Visit(NodeName(h, v), v)]) == Build(AddIfAbsent(start, NodeName(h, v).value, v), false)
  {
    assert [Visit(NodeName(h, v), v)][1..] == [];
  }

  /** One child of the traversal loop: its visits extend the recorded prefix, and a failure there ends the whole walk. */
  lemma {:induction false} TraverseStep(h: Heap, start: Registry, head: seq<Visit>, children: seq<Value>, i: nat, fuel: nat, mid: Registry)
    requires WellFormed(start) && i < |children|
    requires Build(mid, false) == Record(start, head + VisitsAll(h, children[..i], fuel))
    ensures var after := Record(mid, Visits(h, children[i], fuel));
      && Record(start, head + VisitsAll(h, children[..i + 1], fuel)) == after
      && (after.failed ==> Record(start, head + VisitsAll(h, children, fuel)) == after)
  {
    var done := VisitsAll(h, children[..i], fuel);
    var next := Visits(h, children[i], fuel);
    VisitsAllSnoc(h, children, i, fuel);
    RecordExtend(start, head, done, next, mid);
    if Record(mid, next).failed {
      TraverseStopsAtFailure(h, start, head, children, i + 1, fuel);
    }
  }

  lemma {:induction false} RecordExtend(r: Registry, head: seq<Visit>, xs: seq<Visit>, ys: seq<Visit>, mid: Registry)
    requires WellFormed(r) && Build(mid, false) == Record(r, head + xs)
    ensures Record(r, head + (xs + ys)) == Record(mid, ys)
  {
    assert head + (xs + ys) == (head + xs) + ys;
    RecordAppend(r, head + xs, ys);
  }

  lemma {:induction false} TraverseStopsAtFailure(h: Heap, start: Registry, head: seq<Visit>, children: seq<Value>, i: nat, fuel: nat)
    requires WellFormed(start) && i <= |children|
    requires Record(start, head + VisitsAll(h, children[..i], fuel)).failed
    ensures Record(start, head + VisitsAll(h, children, fuel)) == Record(start, head + VisitsAll(h, children[..i], fuel))
  {
    var done := VisitsAll(h, children[..i], fuel);
    var rest := VisitsAll(h, children[i..], fuel);
    VisitsAllAppend(h, children[..i], children[i..], fuel);
    assert children[..i] + children[i..] == children;
    RecordFailedPrefix(start, head, done, rest);
  }

  lemma {:induction false} RecordFailedPrefix(r: Registry, head: seq<Visit>, xs: seq<Visit>, ys: seq<Visit>)
    requires WellFormed(r) && Record(r, head + xs).failed
    ensures Record(r, head + (xs + ys)) == Record(r, head + xs)
  {
    assert head + (xs + ys) == (head + xs) + ys;
    RecordAppend(r, head + xs, ys);
  }

  // ---------------------------------------------------------------------------
  // The dictionary object
  // ---------------------------------------------------------------------------

  /** The static tool cache, updated in place. */
  class ToolCache {
    var index: map<string, Entry>
    var order: seq<string>

    function Contents(): Registry
      reads this
    {
      Registry(index, order)
    }

    ghost predicate Valid()
      reads this
    {
      WellFormed(Contents())
    }

    constructor ()
      ensures Valid() && Contents() == Empty
    {
      index := map[];
      order := [];
    }

    method Clear()
      modifies this
      ensures Valid() && Contents() == Empty
    {
      index := map[];
      order := [];
    }

    /** The load's insertion: only a name not yet present is added. */
    method AddIfMissing(name: string, node: Value)
      requires Valid()
      modifies this
      ensures Valid() && Contents() == AddIfAbsent(old(Contents()), name, node)
    {
      var k := FoldString(name);
      if k !in index {
        index := index[k := Entry(name, node)];
        order := order + [k];
      }
    }

    /** `cache[name] = node`. */
    method Store(name: string, node: Value)
      requires Valid()
      modifies this
      ensures Valid() && Contents() == Put(old(Contents()), name, node)
    {
      var k := FoldString(name);
      if k in index {
        index := index[k := index[k].(node := node)];
      } else {
        index := index[k := Entry(name, node)];
        order := order + [k];
      }
    }

    /**
     * Traverse with the insert-if-absent action: visits `v` and what lies below it
     * in pre-order, and reports whether an insertion threw on a null name.
     */
    method Traverse(h: Heap, v: Value, fuel: nat) returns (failed: bool)
      requires Valid()
      modifies this
      ensures Valid()
      ensures Build(Contents(), failed) == Record(old(Contents()), Visits(h, v, fuel))
      decreases fuel, 0
    {
      if fuel == 0 || v == Null { return false; }
      var name := NodeName(h, v);
      ghost var start := Contents();
      FirstVisit(start, h, v, fuel);
      if name.None? {
        return true;
      }
      AddIfMissing(name.value, v);
      failed := TraverseChildren(h, Children(h, v), fuel - 1, start, [Visit(name, v)]);
    }

    /** The loop over a node's children: each is traversed in turn, and a failure ends the walk. */
    method TraverseChildren(h: Heap, children: seq<Value>, fuel: nat, ghost start: Registry, ghost head: seq<Visit>) returns (failed: bool)
      requires Valid() && WellFormed(start) && Build(Contents(), false) == Record(start, head)
      modifies this
      ensures Valid()
      ensures Build(Contents(), failed) == Record(start, head + VisitsAll(h, children, fuel))
      decreases fuel, 1
    {
      assert head + VisitsAll(h, children[..0], fuel) == head;
      var i := 0;
      while i < |children|
        invariant 0 <= i <= |children|
        invariant Valid()
        invariant Build(Contents(), false) == Record(start, head + VisitsAll(h, children[..i], fuel))
      {
        ghost var mid := Contents();
        failed := Traverse(h, children[i], fuel);
        TraverseStep(h, start, head, children, i, fuel, mid);
        if failed { return; }
        i := i + 1;
      }
      assert children[..|children|] == children;
      return false;
    }
  }
}
