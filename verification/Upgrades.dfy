/** `_upgrade_instances` of the patcher: a walk over an object graph that replaces instances of a class as it goes. */
module Upgrades {
  /** A Python object. The entries are the values of a `dict` or the items of a `list`, and are empty for any other
      object; `vars` is the dictionary of attributes, itself an object that others may refer to. */
  class Object {
    const klass: bool
    const list: bool
    const vars: Object?
    var entries: seq<Object>

    constructor (klass: bool, list: bool, vars: Object?, entries: seq<Object>)
      ensures this.klass == klass && this.list == list && this.vars == vars && this.entries == entries
    {
      this.klass, this.list, this.vars, this.entries := klass, list, vars, entries;
    }
  }

  type Cells = map<Object, seq<Object>>

  /** The objects with their entries before the walk from `root`, and what `upgrade` answers. */
  datatype World = World(root: Object, start: Cells, upgrade: map<Object, Object>)

  ghost predicate Closed(w: World) {
    && w.root in w.start
    && (forall o, i {:trigger w.start[o][i]} :: o in w.start && 0 <= i < |w.start[o]| ==> w.start[o][i] in w.start)
    && (forall o :: o in w.start && o.vars != null ==> o.vars in w.start)
    && (forall o :: o in w.start && o.klass ==> o in w.upgrade)
    && (forall o :: o in w.upgrade ==> o.klass && w.upgrade[o] in w.start && !w.upgrade[o].klass)
  }

  /** The slots of a container that the walk follows. */
  function Slots(w: World, o: Object): seq<Object>
    requires o in w.start && (o.vars != null ==> o.vars in w.start)
  {
    w.start[o] + if o.vars == null then [] else w.start[o.vars]
  }

  // --- Reaching ---

  /** The walk may come from `x` to `y`: by a slot, or if `renewed` by what has been put into a slot. */
  ghost predicate Leads(w: World, x: Object, y: Object, renewed: bool)
    requires Closed(w)
  {
    && x in w.start && !y.klass
    && (y in Slots(w, x) || (renewed && exists k :: k in w.upgrade && k in Slots(w, x) && w.upgrade[k] == y))
  }

  ghost predicate Within(w: World, y: Object, renewed: bool, n: nat)
    requires Closed(w)
  {
    if n == 0 then y == w.root
    else exists x :: x in w.start && Within(w, x, renewed, n - 1) && Leads(w, x, y, renewed)
  }

  ghost predicate Reaches(w: World, y: Object, renewed: bool)
    requires Closed(w)
  {
    exists n: nat :: Within(w, y, renewed, n)
  }

  lemma ReachesOn(w: World, x: Object, y: Object, renewed: bool)
    requires Closed(w) && Reaches(w, x, renewed) && Leads(w, x, y, renewed)
    ensures Reaches(w, y, renewed)
  {
    var n: nat :| Within(w, x, renewed, n);
    assert Within(w, y, renewed, n + 1);
  }

  lemma OnlyRootIsKlass(w: World, y: Object, renewed: bool)
    requires Closed(w) && Reaches(w, y, renewed) && y.klass
    ensures y == w.root
  {
    var n: nat :| Within(w, y, renewed, n);
  }

  // --- The state of the walk ---

  datatype State = State(cells: Cells, visited: set<Object>, oldToNew: map<Object, Object>, calls: seq<Object>)

  ghost predicate Shaped(w: World, s: State) {
    s.cells.Keys == w.start.Keys && forall o :: o in w.start ==> |s.cells[o]| == |w.start[o]|
  }

  /** A slot holds what it held at first, or its replacement. */
  ghost predicate Sound(w: World, s: State, o: Object, v: Object, i: nat)
    requires o in w.start && i < |w.start[o]|
  {
    v == w.start[o][i] || (w.start[o][i] in s.oldToNew && v == s.oldToNew[w.start[o][i]])
  }

  ghost predicate Touched(s: State, c: Object) {
    c in s.visited || exists o :: o in s.visited && o.vars == c
  }

  ghost predicate Found(w: World, s: State, k: Object)
    requires Closed(w) && s.visited <= w.start.Keys
  {
    exists o :: o in s.visited && k in Slots(w, o)
  }

  ghost predicate OnceEach(s: State) {
    && (forall i, j :: 0 <= i < j < |s.calls| ==> s.calls[i] != s.calls[j])
    && (forall k :: k in s.calls ==> k in s.oldToNew) && (forall k :: k in s.oldToNew ==> k in s.calls)
  }

  ghost predicate CellsSound(w: World, s: State)
    requires Shaped(w, s)
  {
    && (forall o, i {:trigger s.cells[o][i]} :: o in w.start && 0 <= i < |w.start[o]| ==> Sound(w, s, o, s.cells[o][i], i))
    && (forall o :: o in w.start && !Touched(s, o) ==> s.cells[o] == w.start[o])
  }

  ghost predicate MapSound(w: World, s: State)
    requires Closed(w) && s.visited <= w.start.Keys
  {
    && OnceEach(s) && w.root !in s.oldToNew
    && (forall k :: k in s.oldToNew ==> k in w.upgrade && s.oldToNew[k] == w.upgrade[k] && Found(w, s, k))
  }

  ghost predicate Inv(w: World, s: State)
    requires Closed(w)
  {
    && Shaped(w, s) && s.visited <= w.start.Keys && w.root in s.visited
    && (forall x :: x in s.visited ==> Reaches(w, x, true))
    && CellsSound(w, s) && MapSound(w, s)
  }

  /** What the slot referred to has been visited, or replaced. */
  ghost predicate Handled(w: World, s: State, o: Object, i: nat)
    requires Shaped(w, s) && o in w.start && i < |w.start[o]|
  {
    var v := w.start[o][i];
    v in s.visited || (v in s.oldToNew && s.cells[o][i] == s.oldToNew[v])
  }

  ghost predicate Row(w: World, s: State, o: Object, n: nat)
    requires Shaped(w, s) && o in w.start && n <= |w.start[o]|
  {
    forall i :: 0 <= i < n ==> Handled(w, s, o, i)
  }

  ghost predicate Done(w: World, s: State, o: Object)
    requires Shaped(w, s) && Closed(w) && o in w.start
  {
    Row(w, s, o, |w.start[o]|) && (o.vars != null ==> Row(w, s, o.vars, |w.start[o.vars]|))
  }

  /** The walk has gone from `s` on to `t`. */
  ghost predicate Later(w: World, s: State, t: State)
    requires Shaped(w, s) && Shaped(w, t)
  {
    && s.visited <= t.visited
    && (forall k :: k in s.oldToNew ==> k in t.oldToNew && t.oldToNew[k] == s.oldToNew[k])
    && forall o, i {:trigger t.cells[o][i]} {:trigger s.cells[o][i]} :: o in w.start && 0 <= i < |w.start[o]| ==>
      w.start[o][i] in s.oldToNew && s.cells[o][i] == s.oldToNew[w.start[o][i]] ==> t.cells[o][i] == s.cells[o][i]
  }

  /** From `s` to `t` every object newly visited has been dealt with completely. */
  ghost predicate Progress(w: World, s: State, t: State)
    requires Closed(w) && Shaped(w, s)
  {
    Inv(w, t) && Later(w, s, t) && forall x :: x in t.visited && x !in s.visited ==> Done(w, t, x)
  }

  lemma RowStays(w: World, s: State, t: State, o: Object, n: nat)
    requires Shaped(w, s) && Shaped(w, t) && Later(w, s, t)
    requires o in w.start && n <= |w.start[o]| && Row(w, s, o, n)
    ensures Row(w, t, o, n)
  {
    forall i | 0 <= i < n
      ensures Handled(w, t, o, i)
    {
      assert Handled(w, s, o, i);
    }
  }

  lemma RowMore(w: World, s: State, t: State, o: Object, i: nat)
    requires Shaped(w, s) && Shaped(w, t) && Later(w, s, t)
    requires o in w.start && i < |w.start[o]| && Row(w, s, o, i) && Handled(w, t, o, i)
    ensures Row(w, t, o, i + 1)
  {
    RowStays(w, s, t, o, i);
  }

  lemma LaterTwice(w: World, s: State, t: State, u: State)
    requires Shaped(w, s) && Shaped(w, t) && Shaped(w, u) && Later(w, s, t) && Later(w, t, u)
    ensures Later(w, s, u)
  {
  }

  lemma ProgressTwice(w: World, s: State, t: State, u: State)
    requires Closed(w) && Shaped(w, s) && Progress(w, s, t) && Progress(w, t, u)
    ensures Progress(w, s, u)
  {
    LaterTwice(w, s, t, u);
    forall x | x in u.visited && x !in s.visited
      ensures Done(w, u, x)
    {
      if x in t.visited {
        assert Done(w, t, x);
        RowStays(w, t, u, x, |w.start[x]|);
        if x.vars != null {
          RowStays(w, t, u, x.vars, |w.start[x.vars]|);
        }
      }
    }
  }

  // --- The steps ---

  function Visited(s: State, o: Object): State {
    s.(visited := s.visited + {o})
  }

  function Upgraded(s: State, k: Object, made: Object): State {
    s.(oldToNew := s.oldToNew[k := made], calls := s.calls + [k])
  }

  function Replaced(s: State, c: Object, i: nat, made: Object): State
    requires c in s.cells && i < |s.cells[c]|
  {
    s.(cells := s.cells[c := s.cells[c][i := made]])
  }

  /** Entering a container. */
  lemma VisitedKeeps(w: World, s: State, o: Object)
    requires Closed(w) && Reaches(w, o, true) && o in w.start
    requires Inv(w, s) || (o == w.root && s == State(w.start, {}, map[], []))
    ensures Inv(w, Visited(s, o)) && Later(w, s, Visited(s, o))
  {
    var t := Visited(s, o);
    forall k | k in t.oldToNew
      ensures Found(w, t, k)
    {
      assert Found(w, s, k);
    }
    assert forall c :: Touched(s, c) ==> Touched(t, c);
  }

  /** Upgrading an instance found in a slot of a visited container. */
  lemma UpgradedKeeps(w: World, s: State, k: Object)
    requires Closed(w) && Inv(w, s) && k in w.upgrade && k !in s.oldToNew && k !in s.visited && Found(w, s, k)
    ensures Progress(w, s, Upgraded(s, k, w.upgrade[k]))
  {
    UpgradedCells(w, s, k);
    UpgradedMap(w, s, k);
  }

  lemma UpgradedMap(w: World, s: State, k: Object)
    requires Closed(w) && s.visited <= w.start.Keys && MapSound(w, s) && k in w.upgrade && k !in s.oldToNew
    requires w.root in s.visited && k !in s.visited && Found(w, s, k)
    ensures MapSound(w, Upgraded(s, k, w.upgrade[k]))
  {
    UpgradedOnce(w, s, k);
    forall j | j in s.oldToNew || j == k
      ensures Found(w, Upgraded(s, k, w.upgrade[k]), j)
    {
      FoundStays(w, s, Upgraded(s, k, w.upgrade[k]), j);
    }
  }

  lemma FoundStays(w: World, s: State, t: State, j: Object)
    requires Closed(w) && t.visited == s.visited && s.visited <= w.start.Keys && Found(w, s, j)
    ensures Found(w, t, j)
  {
  }

  lemma UpgradedCells(w: World, s: State, k: Object)
    requires Closed(w) && Shaped(w, s) && CellsSound(w, s) && k in w.upgrade && k !in s.oldToNew
    ensures CellsSound(w, Upgraded(s, k, w.upgrade[k]))
  {
    var t := Upgraded(s, k, w.upgrade[k]);
    forall o, i | o in w.start && 0 <= i < |w.start[o]|
      ensures Sound(w, t, o, t.cells[o][i], i)
    {
      assert Sound(w, s, o, s.cells[o][i], i);
    }
    forall o | o in w.start && !Touched(t, o)
      ensures t.cells[o] == w.start[o]
    {
      assert !Touched(s, o);
    }
  }

  lemma UpgradedOnce(w: World, s: State, k: Object)
    requires Closed(w) && OnceEach(s) && k in w.upgrade && k !in s.oldToNew
    ensures OnceEach(Upgraded(s, k, w.upgrade[k]))
  {
  }

  /** A slot of a visited container given the replacement of what it referred to. */
  lemma ReplacedKeeps(w: World, s: State, c: Object, i: nat)
    requires Closed(w) && Inv(w, s) && Touched(s, c) && c in w.start && i < |w.start[c]| && w.start[c][i] in s.oldToNew
    ensures var t := Replaced(s, c, i, w.upgrade[w.start[c][i]]); Progress(w, s, t) && Handled(w, t, c, i)
  {
    var t := Replaced(s, c, i, w.upgrade[w.start[c][i]]);
    ReplacedCells(w, s, c, i);
    forall j | j in t.oldToNew
      ensures Found(w, t, j)
    {
      FoundStays(w, s, t, j);
    }
  }

  lemma ReplacedCells(w: World, s: State, c: Object, i: nat)
    requires Closed(w) && Shaped(w, s) && CellsSound(w, s) && Touched(s, c) && c in w.start && i < |w.start[c]|
    requires w.start[c][i] in w.upgrade && w.start[c][i] in s.oldToNew
    requires s.oldToNew[w.start[c][i]] == w.upgrade[w.start[c][i]]
    ensures var t := Replaced(s, c, i, w.upgrade[w.start[c][i]]); Shaped(w, t) && CellsSound(w, t) && Later(w, s, t)
  {
    var t := Replaced(s, c, i, w.upgrade[w.start[c][i]]);
    forall o, j | o in w.start && 0 <= j < |w.start[o]|
      ensures Sound(w, t, o, t.cells[o][j], j)
      ensures (o == c && i == j) || t.cells[o][j] == s.cells[o][j]
    {
      assert Sound(w, s, o, s.cells[o][j], j);
    }
    forall o | o in w.start && !Touched(t, o)
      ensures t.cells[o] == w.start[o]
    {
      assert !Touched(s, o) && o != c;
    }
  }

  /** A container both of whose rows have been handled since it was entered. */
  lemma VisitEnds(w: World, s: State, o: Object, t: State)
    requires Closed(w) && Shaped(w, s) && o in w.start && Later(w, s, Visited(s, o))
    requires Progress(w, Visited(s, o), t) && Done(w, t, o)
    ensures Progress(w, s, t)
  {
    LaterTwice(w, s, Visited(s, o), t);
  }

  function Unvisited(w: World, s: State): nat {
    |w.start.Keys - s.visited|
  }

  lemma FewerLeft(w: World, s: State, t: State, o: Object)
    requires s.visited <= t.visited && o in w.start && o in t.visited
    ensures Unvisited(w, t) <= Unvisited(w, s) && (o !in s.visited ==> Unvisited(w, t) < Unvisited(w, s))
  {
    var a, b := w.start.Keys - s.visited, w.start.Keys - t.visited;
    assert a == b + (a - b);
    assert o !in s.visited ==> o in a - b;
  }

  class Walk {
    const upgrade: map<Object, Object>
    var visited: set<Object>
    var oldToNew: map<Object, Object>
    ghost var calls: seq<Object>

    constructor (upgrade: map<Object, Object>)
      ensures this.upgrade == upgrade && visited == {} && oldToNew == map[] && calls == []
    {
      this.upgrade, visited, oldToNew, calls := upgrade, {}, map[], [];
    }

    /** `s` is the state of the walk and of the objects. */
    ghost predicate Is(s: State)
      reads this, s.cells.Keys
    {
      && s.visited == visited && s.oldToNew == oldToNew && s.calls == calls
      && forall o :: o in s.cells ==> o.entries == s.cells[o]
    }

    /** `_upgrade_instances` on `container`. */
    method Visit(container: Object, ghost w: World, ghost s: State) returns (ghost t: State)
      requires Closed(w) && upgrade == w.upgrade && container in w.start && Reaches(w, container, true)
      requires Inv(w, s) || (container == w.root && s == State(w.start, {}, map[], []))
      requires Is(s) && container !in visited
      modifies this, w.start.Keys
      ensures Is(t) && Progress(w, s, t) && container in visited
      decreases Unvisited(w, s), 1
    {
      VisitedKeeps(w, s, container);
      ghost var s1 := Enter(container, s);
      FewerLeft(w, s, s1, container);
      t := UpgradeRows(container, w, s1);
      VisitEnds(w, s, container, t);
    }

    method Enter(container: Object, ghost s: State) returns (ghost t: State)
      requires Is(s)
      modifies this
      ensures t == Visited(s, container) && Is(t)
    {
      visited := visited + {container};
      t := Visited(s, container);
    }

    method UpgradeRows(container: Object, ghost w: World, ghost s: State) returns (ghost t: State)
      requires Closed(w) && upgrade == w.upgrade && Inv(w, s) && Is(s) && container in visited
      modifies this, w.start.Keys
      ensures Is(t) && Progress(w, s, t) && Done(w, t, container)
      decreases Unvisited(w, s), 5
    {
      t := UpgradeRow(container, container, w, s);
      if container.vars != null {
        ghost var s' := t;
        FewerLeft(w, s, s', container);
        t := UpgradeRow(container.vars, container, w, s');
        RowStays(w, s', t, container, |w.start[container]|);
        ProgressTwice(w, s, s', t);
      }
    }

    /** One of the three loops: over the values of a dictionary, of which it has a copy, or over a list. */
    method UpgradeRow(c: Object, ghost container: Object, ghost w: World, ghost s: State) returns (ghost t: State)
      requires Closed(w) && upgrade == w.upgrade && Inv(w, s) && Is(s)
      requires container in visited && (c == container || c == container.vars)
      modifies this, w.start.Keys
      ensures Is(t) && Progress(w, s, t) && Row(w, t, c, |w.start[c]|)
      decreases Unvisited(w, s), 4
    {
      var values := c.entries;
      t := s;
      SelfProgress(w, s);
      for i := 0 to |values|
        invariant Is(t) && Progress(w, s, t) && Row(w, t, c, i)
      {
        ghost var s' := t;
        var v := if c.list then c.entries[i] else values[i];
        ReadSound(w, s, s', c, i);
        FewerLeft(w, s, s', container);
        t := UpgradeSlot(c, i, v, container, w, s');
        RowMore(w, s', t, c, i);
        ProgressTwice(w, s, s', t);
      }
    }

    method UpgradeSlot(c: Object, i: nat, v: Object, ghost container: Object, ghost w: World, ghost s: State)
      returns (ghost t: State)
      requires Closed(w) && upgrade == w.upgrade && Inv(w, s) && Is(s)
      requires container in visited && (c == container || c == container.vars)
      requires i < |w.start[c]| && ReadFrom(w, s, c, v, i)
      modifies this, w.start.Keys
      ensures Is(t) && Progress(w, s, t) && Handled(w, t, c, i)
      decreases Unvisited(w, s), 3
    {
      var made;
      SlotLeads(w, s, container, c, i, v);
      made, t := UpgradeOrTraverse(v, w, s);
      SlotEnds(w, s, t, made, c, i, v);
      if made != null {
        t := Put(c, i, made, t);
      }
    }

    method Put(c: Object, i: nat, made: Object, ghost s: State) returns (ghost t: State)
      requires Is(s) && c in s.cells && i < |s.cells[c]|
      modifies c
      ensures t == Replaced(s, c, i, made) && Is(t)
    {
      c.entries := c.entries[i := made];
      t := Replaced(s, c, i, made);
    }

    /** `upgrade_or_traverse`, where `null` is `None`. */
    method UpgradeOrTraverse(obj: Object, ghost w: World, ghost s: State) returns (made: Object?, ghost t: State)
      requires Closed(w) && upgrade == w.upgrade && Inv(w, s) && Is(s) && obj in w.start
      requires if obj.klass then Found(w, s, obj) else Reaches(w, obj, true)
      modifies this, w.start.Keys
      ensures Is(t) && Progress(w, s, t) && Answers(t, obj, made)
      decreases Unvisited(w, s), 2
    {
      made, t := null, s;
      SelfProgress(w, s);
      if obj in visited {
      } else if obj.klass {
        if obj in oldToNew {
          made := oldToNew[obj];
        } else {
          UpgradedKeeps(w, s, obj);
          made, t := Upgrade(obj, s);
        }
      } else {
        t := Visit(obj, w, s);
      }
    }

    method Upgrade(obj: Object, ghost s: State) returns (made: Object, ghost t: State)
      requires Is(s) && obj in upgrade
      modifies this
      ensures made == upgrade[obj] && t == Upgraded(s, obj, made) && Is(t)
    {
      made := upgrade[obj];
      oldToNew, calls := oldToNew[obj := made], calls + [obj];
      t := Upgraded(s, obj, made);
    }
  }

  // --- The whole walk ---

  function Renewed(w: World, v: Object): Object
    requires Closed(w) && v in w.start
  {
    if v.klass && v != w.root then w.upgrade[v] else v
  }

  /** What the walk leaves behind: it has visited everything that can be reached without passing through an instance,
      the slots of what it has visited and no others are renewed, and each instance that they referred to has been
      upgraded exactly once. */
  ghost predicate Finished(w: World, t: State)
    requires Closed(w)
  {
    && Shaped(w, t) && t.visited <= w.start.Keys
    && (forall x :: x in w.start && Reaches(w, x, false) ==> x in t.visited)
    && (forall x :: x in t.visited ==> Reaches(w, x, true))
    && (forall c, i {:trigger t.cells[c][i]} :: c in w.start && 0 <= i < |w.start[c]| ==>
      t.cells[c][i] == if Touched(t, c) then Renewed(w, w.start[c][i]) else w.start[c][i])
    && (forall i, j :: 0 <= i < j < |t.calls| ==> t.calls[i] != t.calls[j])
    && (forall k :: k in w.start ==> (k in t.calls <==> k.klass && k != w.root && Found(w, t, k)))
  }

  /** `_upgrade_instances` with nothing visited yet. */
  method UpgradeInstances(container: Object, upgrade: map<Object, Object>, ghost w: World) returns (ghost t: State)
    requires Closed(w) && w.root == container && w.upgrade == upgrade
    requires forall o :: o in w.start ==> o.entries == w.start[o]
    modifies w.start.Keys
    ensures Finished(w, t)
    ensures forall o :: o in w.start ==> o.entries == t.cells[o]
  {
    var walk := new Walk(upgrade);
    ghost var s := State(w.start, {}, map[], []);
    assert Within(w, container, true, 0);
    t := walk.Visit(container, w, s);
    WalkEnds(w, s, t);
  }

  lemma WalkEnds(w: World, s: State, t: State)
    requires Closed(w) && Shaped(w, s) && s.visited == {} && Progress(w, s, t)
    ensures Finished(w, t)
  {
    VisitedIsClosure(w, t);
    forall x | x in w.start && Reaches(w, x, false)
      ensures x in t.visited
    {
      var n: nat :| Within(w, x, false, n);
      AllReached(w, t.visited, x, n);
    }
    forall c, i | c in w.start && 0 <= i < |w.start[c]|
      ensures t.cells[c][i] == if Touched(t, c) then Renewed(w, w.start[c][i]) else w.start[c][i]
    {
      SlotRenewed(w, t, c, i);
    }
    forall k | k in w.start
      ensures k in t.calls <==> k.klass && k != w.root && Found(w, t, k)
    {
      UpgradedIfFound(w, t, k);
    }
  }

  ghost predicate AllDone(w: World, t: State)
    requires Closed(w)
  {
    Inv(w, t) && forall x :: x in t.visited ==> Done(w, t, x)
  }

  lemma FoundHandled(w: World, t: State, o: Object, v: Object)
    requires Closed(w) && AllDone(w, t) && o in t.visited && v in Slots(w, o)
    ensures v in t.visited || (v.klass && v in t.oldToNew)
  {
    assert Done(w, t, o);
    if v in w.start[o] {
      var i :| 0 <= i < |w.start[o]| && w.start[o][i] == v;
      assert Handled(w, t, o, i);
    } else {
      var i :| 0 <= i < |w.start[o.vars]| && w.start[o.vars][i] == v;
      assert Handled(w, t, o.vars, i);
    }
  }

  lemma Before(w: World, x: Object, n: nat) returns (o: Object)
    requires Closed(w) && Within(w, x, false, n) && n > 0
    ensures o in w.start && Within(w, o, false, n - 1) && !x.klass && x in Slots(w, o)
  {
    o :| o in w.start && Within(w, o, false, n - 1) && Leads(w, o, x, false);
  }

  /** A set of objects with everything that their slots refer to, instances aside. */
  ghost predicate IsClosure(w: World, objects: set<Object>)
    requires Closed(w)
  {
    && w.root in objects && objects <= w.start.Keys
    && forall o, v :: o in objects && v in Slots(w, o) && !v.klass ==> v in objects
  }

  lemma VisitedIsClosure(w: World, t: State)
    requires Closed(w) && AllDone(w, t)
    ensures IsClosure(w, t.visited)
  {
    forall o, v | o in t.visited && v in Slots(w, o) && !v.klass
      ensures v in t.visited
    {
      FoundHandled(w, t, o, v);
    }
  }

  lemma {:induction false} AllReached(w: World, objects: set<Object>, x: Object, n: nat)
    requires Closed(w) && IsClosure(w, objects) && Within(w, x, false, n)
    ensures x in objects
  {
    if n > 0 {
      var o := Before(w, x, n);
      AllReached(w, objects, o, n - 1);
    }
  }

  lemma SlotRenewed(w: World, t: State, c: Object, i: nat)
    requires Closed(w) && AllDone(w, t) && c in w.start && i < |w.start[c]|
    ensures t.cells[c][i] == if Touched(t, c) then Renewed(w, w.start[c][i]) else w.start[c][i]
  {
    if Touched(t, c) {
      var v := w.start[c][i];
      var o :| o in t.visited && (o == c || o.vars == c);
      assert Done(w, t, o);
      assert Handled(w, t, c, i) && Sound(w, t, c, t.cells[c][i], i);
      if v in t.visited && v.klass {
        OnlyRootIsKlass(w, v, true);
      }
    }
  }

  lemma UpgradedIfFound(w: World, t: State, k: Object)
    requires Closed(w) && AllDone(w, t) && k in w.start
    ensures k in t.calls <==> k.klass && k != w.root && Found(w, t, k)
  {
    if k.klass && k != w.root && Found(w, t, k) {
      var o :| o in t.visited && k in Slots(w, o);
      FoundHandled(w, t, o, k);
      if k in t.visited {
        OnlyRootIsKlass(w, k, true);
      }
    }
  }

  /** After the walk a slot refers to an instance of the class only if it was not within reach, or if the container
      that the walk began with is itself an instance and the slot referred to it. */
  lemma InstancesLeft(w: World, t: State, c: Object, i: nat)
    requires Closed(w) && Finished(w, t) && c in w.start && i < |w.start[c]|
    ensures t.cells[c][i].klass <==> w.start[c][i].klass && (!Touched(t, c) || w.start[c][i] == w.root)
  {
  }

  /** Slots that shared an object share its replacement, and slots that did not share still do not, if `upgrade` makes
      a new object for each. */
  lemma SharingKept(w: World, t: State, c: Object, i: nat, d: Object, j: nat)
    requires Closed(w) && Finished(w, t) && Touched(t, c) && Touched(t, d)
    requires c in w.start && i < |w.start[c]| && d in w.start && j < |w.start[d]|
    requires forall k, l :: k in w.upgrade && l in w.upgrade && w.upgrade[k] == w.upgrade[l] ==> k == l
    requires forall k :: k in w.upgrade ==> w.upgrade[k] != w.start[c][i] && w.upgrade[k] != w.start[d][j]
    ensures t.cells[c][i] == t.cells[d][j] <==> w.start[c][i] == w.start[d][j]
  {
    assert t.cells[c][i] == Renewed(w, w.start[c][i]) && t.cells[d][j] == Renewed(w, w.start[d][j]);
  }

  // --- One slot ---

  predicate Answers(t: State, obj: Object, made: Object?) {
    if made == null then obj in t.visited else obj in t.oldToNew && made == t.oldToNew[obj]
  }

  lemma SlotEnds(w: World, s: State, t: State, made: Object?, c: Object, i: nat, v: Object)
    requires Closed(w) && Inv(w, s) && Progress(w, s, t) && Answers(t, v, made) && Touched(s, c) && c in w.start
    requires i < |w.start[c]| && ReadFrom(w, s, c, v, i)
    ensures if made == null then Handled(w, t, c, i)
      else Progress(w, s, Replaced(t, c, i, made)) && Handled(w, Replaced(t, c, i, made), c, i)
  {
    if made != null {
      ReplacedKeeps(w, t, c, i);
      ProgressTwice(w, s, t, Replaced(t, c, i, made));
    }
  }

  /** `v` has been read from the slot, now or earlier. */
  ghost predicate ReadFrom(w: World, s: State, c: Object, v: Object, i: nat)
    requires Shaped(w, s) && c in w.start && i < |w.start[c]|
  {
    v == w.start[c][i] || (w.start[c][i] in s.oldToNew && v == s.oldToNew[w.start[c][i]] == s.cells[c][i])
  }

  lemma SlotLeads(w: World, s: State, container: Object, c: Object, i: nat, v: Object)
    requires Closed(w) && Inv(w, s) && container in s.visited && (c == container || c == container.vars)
    requires i < |w.start[c]| && ReadFrom(w, s, c, v, i)
    ensures v in w.start && if v.klass then Found(w, s, v) else Reaches(w, v, true)
    ensures Touched(s, c)
  {
    var v0 := w.start[c][i];
    assert v0 in Slots(w, container);
    if !v.klass {
      assert v != v0 ==> v0 in w.upgrade && w.upgrade[v0] == v;
      ReachesOn(w, container, v, true);
    }
  }

  lemma SelfProgress(w: World, s: State)
    requires Closed(w) && Inv(w, s)
    ensures Progress(w, s, s)
  {
  }

  lemma ReadSound(w: World, s: State, t: State, c: Object, i: nat)
    requires Closed(w) && Inv(w, s) && Inv(w, t) && Later(w, s, t) && c in w.start && i < |w.start[c]|
    ensures ReadFrom(w, t, c, s.cells[c][i], i) && ReadFrom(w, t, c, t.cells[c][i], i)
  {
    assert Sound(w, s, c, s.cells[c][i], i) && Sound(w, t, c, t.cells[c][i], i);
  }
}
