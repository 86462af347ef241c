/** The timer list of the hub: a Python list kept in heap order by `heapq`. */
module TimerHeap {

  /** What a timer's callback does to the hub while it runs. */
  datatype Action = Schedule(timer: Timer, now: real) | Cancel(timer: Timer)

  /** `eventlet.hubs.timer.Timer`; `rank` is what `id(self)` contributes to the ordering. */
  class Timer {
    const rank: nat
    const seconds: real
    const script: seq<Action>
    var called: bool

    constructor (rank: nat, seconds: real, script: seq<Action>)
      ensures !called && this.rank == rank && this.seconds == seconds && this.script == script
    {
      this.rank, this.seconds, this.script, called := rank, seconds, script, false;
    }
  }

  /** The pair `(scheduled_time, timer)`, ordered as Python orders tuples. */
  datatype Entry = Entry(when: real, timer: Timer)

  predicate Leq(a: Entry, b: Entry) {
    a.when < b.when || (a.when == b.when && a.timer.rank <= b.timer.rank)
  }

  function Parent(i: int): int
    requires 0 < i
  {
    (i - 1) / 2
  }

  predicate LeqChildren(s: seq<Entry>, e: Entry, p: nat) {
    && (2 * p + 1 < |s| ==> Leq(e, s[2 * p + 1]))
    && (2 * p + 2 < |s| ==> Leq(e, s[2 * p + 2]))
  }

  ghost predicate Ordered(s: seq<Entry>, p: nat)
    requires p < |s|
  {
    LeqChildren(s, s[p], p)
  }

  /** Every position from `lo` on, except `hole`, is no larger than its children; and what sits
      above `hole` is no larger than the children of `hole`. */
  ghost predicate HeapExcept(s: seq<Entry>, lo: nat, hole: int) {
    && (forall p: nat :: lo <= p < |s| && p != hole ==> Ordered(s, p))
    && (0 < hole < |s| && lo <= Parent(hole) ==> LeqChildren(s, s[Parent(hole)], hole))
  }

  ghost predicate IsHeap(s: seq<Entry>) {
    forall p: nat :: p < |s| ==> Ordered(s, p)
  }

  lemma {:induction false} RootIsLeast(s: seq<Entry>, i: nat)
    requires IsHeap(s) && i < |s|
    ensures Leq(s[0], s[i])
  {
    if i > 0 {
      RootIsLeast(s, Parent(i));
      assert Ordered(s, Parent(i));
    }
  }

  function Swap(s: seq<Entry>, i: nat, j: nat): (r: seq<Entry>)
    requires i < |s| && j < |s|
    ensures multiset(r) == multiset(s)
  {
    s[i := s[j]][j := s[i]]
  }

  /** Exchanging a too small entry with its parent moves the hole up. */
  lemma SwapWithParent(s: seq<Entry>, pos: nat)
    requires 0 < pos < |s| && UpHeap(s, pos)
    requires !Leq(s[Parent(pos)], s[pos])
    ensures UpHeap(Swap(s, pos, Parent(pos)), Parent(pos))
  {
    var q := Parent(pos);
    var r := Swap(s, pos, q);
    assert Ordered(s, pos);
    forall p: nat | p < |r| && (q == 0 || p != Parent(q))
      ensures Ordered(r, p)
    {
      if p != q {
        assert Ordered(s, p);
      }
    }
    if q > 0 {
      assert Ordered(s, Parent(q));
    }
  }

  /** All entries are in order except that `s[pos]` may be smaller than its parent. */
  ghost predicate UpHeap(s: seq<Entry>, pos: nat) {
    && pos < |s|
    && (forall p: nat :: p < |s| && (pos == 0 || p != Parent(pos)) ==> Ordered(s, p))
    && (pos > 0 ==> LeqChildren(s, s[Parent(pos)], pos) && OrderedBut(s, Parent(pos), pos))
  }

  ghost predicate OrderedBut(s: seq<Entry>, p: nat, c: nat)
    requires p < |s|
  {
    && (2 * p + 1 < |s| && 2 * p + 1 != c ==> Leq(s[p], s[2 * p + 1]))
    && (2 * p + 2 < |s| && 2 * p + 2 != c ==> Leq(s[p], s[2 * p + 2]))
  }

  /** The child with which `heapq` fills position `pos`. */
  function SmallerChild(s: seq<Entry>, pos: nat): (c: nat)
    requires 2 * pos + 1 < |s|
    ensures c < |s| && (c == 2 * pos + 1 || c == 2 * pos + 2) && LeqChildren(s, s[c], pos)
  {
    if 2 * pos + 2 < |s| && Leq(s[2 * pos + 2], s[2 * pos + 1]) then 2 * pos + 2 else 2 * pos + 1
  }

  /** Exchanging a too large entry with its smaller child moves the hole down. */
  lemma SwapWithChild(s: seq<Entry>, lo: nat, pos: nat)
    requires lo <= pos && 2 * pos + 1 < |s| && HeapExcept(s, lo, pos)
    requires !Leq(s[pos], s[SmallerChild(s, pos)])
    ensures HeapExcept(Swap(s, pos, SmallerChild(s, pos)), lo, SmallerChild(s, pos))
  {
    var c := SmallerChild(s, pos);
    var r := Swap(s, pos, c);
    assert Ordered(s, c);
    forall p: nat | lo <= p < |r| && p != c
      ensures Ordered(r, p)
    {
      if p != pos {
        assert Ordered(s, p);
      }
    }
  }

  lemma AppendUpHeap(s: seq<Entry>, e: Entry)
    requires IsHeap(s)
    ensures UpHeap(s + [e], |s|)
  {
    forall p: nat | p < |s| + 1 && (|s| == 0 || p != Parent(|s|))
      ensures Ordered(s + [e], p)
    {
      if p < |s| {
        assert Ordered(s, p);
      }
    }
    if |s| > 0 {
      assert Ordered(s, Parent(|s|));
    }
  }

  lemma ReplaceRoot(s: seq<Entry>, last: Entry)
    requires |s| > 1 && IsHeap(s) && last == s[|s| - 1]
    ensures HeapExcept(s[..|s| - 1][0 := last], 0, 0)
  {
    var r := s[..|s| - 1][0 := last];
    forall p: nat | 0 < p < |r|
      ensures Ordered(r, p)
    {
      assert Ordered(s, p);
    }
  }

  /** A Python list object: `BaseHub.timers` refers to one, and compaction makes it refer to another. */
  class TimerList {
    var items: seq<Entry>

    constructor (items: seq<Entry>)
      ensures this.items == items
    {
      this.items := items;
    }
  }

  /** `heapq.heappush` */
  method HeapPush(items: seq<Entry>, e: Entry) returns (s: seq<Entry>)
    requires IsHeap(items)
    ensures IsHeap(s) && multiset(s) == multiset(items) + multiset{e}
  {
    s := items + [e];
    AppendUpHeap(items, e);
    var pos := |s| - 1;
    while pos > 0 && !Leq(s[Parent(pos)], s[pos])
      invariant 0 <= pos && UpHeap(s, pos)
      invariant multiset(s) == multiset(items + [e])
    {
      SwapWithParent(s, pos);
      s, pos := Swap(s, pos, Parent(pos)), Parent(pos);
    }
  }

  /** `heapq.heappop`; the entry removed is `items[0]`. */
  method HeapPop(items: seq<Entry>) returns (s: seq<Entry>)
    requires items != [] && IsHeap(items)
    ensures IsHeap(s) && multiset(items) == multiset(s) + multiset{items[0]} && |s| == |items| - 1
  {
    var last := items[|items| - 1];
    assert items == items[..|items| - 1] + [last];
    s := items[..|items| - 1];
    if s != [] {
      ReplaceRoot(items, last);
      s := SiftDown(s[0 := last], 0);
    }
  }

  /** `heapq.heapify` */
  method Heapify(items: seq<Entry>) returns (s: seq<Entry>)
    ensures IsHeap(s) && multiset(s) == multiset(items) && |s| == |items|
  {
    s := items;
    var i := |s| / 2;
    while i > 0
      invariant 0 <= i <= |s| == |items|
      invariant HeapExcept(s, i, -1)
      invariant multiset(s) == multiset(items)
    {
      i := i - 1;
      s := SiftDown(s, i);
    }
  }

  method SiftDown(items: seq<Entry>, start: nat) returns (s: seq<Entry>)
    requires start < |items| && HeapExcept(items, start, start)
    ensures |s| == |items| && HeapExcept(s, start, -1)
    ensures multiset(s) == multiset(items)
  {
    s := items;
    var pos := start;
    while 2 * pos + 1 < |s| && !Leq(s[pos], s[SmallerChild(s, pos)])
      invariant start <= pos < |s| == |items|
      invariant HeapExcept(s, start, pos)
      invariant multiset(s) == multiset(items)
      decreases |s| - pos
    {
      SwapWithChild(s, start, pos);
      var c := SmallerChild(s, pos);
      s, pos := Swap(s, pos, c), c;
    }
    assert Ordered(s, pos);
  }
}
