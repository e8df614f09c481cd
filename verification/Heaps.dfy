/** The k-th largest logit with a bounded heap (app/native/fused_ops_numba.py:69-99): one pass over the
    values, keeping the k largest seen so far in a min-heap that is sifted in place. */
module Heaps {
  function Parent(i: nat): nat
    requires i > 0
  {
    (i - 1) / 2
  }

  predicate IsHeap(h: seq<real>) {
    forall i :: 0 < i < |h| ==> h[Parent(i)] <= h[i]
  }

  /** A heap but for entry `c`, which may be below its parent. */
  predicate RisesAt(h: seq<real>, c: nat) {
    && (forall i :: 0 < i < |h| && i != c ==> h[Parent(i)] <= h[i])
    && (forall i :: 0 < i < |h| && Parent(i) == c && c > 0 ==> h[Parent(c)] <= h[i])
  }

  /** A heap but for entry `c`, which may be above its children. */
  predicate SinksAt(h: seq<real>, c: nat) {
    && (forall i :: 0 < i < |h| && Parent(i) != c ==> h[Parent(i)] <= h[i])
    && (forall i :: 0 < i < |h| && Parent(i) == c && c > 0 ==> h[Parent(c)] <= h[i])
  }

  function Swapped(h: seq<real>, i: nat, j: nat): seq<real>
    requires i < |h| && j < |h|
  {
    h[i := h[j]][j := h[i]]
  }

  lemma SwapKeeps(h: seq<real>, i: nat, j: nat)
    requires i < |h| && j < |h|
    ensures multiset(Swapped(h, i, j)) == multiset(h)
  {
  }

  lemma Rises(h: seq<real>, c: nat)
    requires 0 < c < |h| && RisesAt(h, c) && h[Parent(c)] > h[c]
    ensures RisesAt(Swapped(h, c, Parent(c)), Parent(c))
  {
  }

  lemma Sinks(h: seq<real>, c: nat, m: nat)
    requires c < m < |h| && Parent(m) == c && SinksAt(h, c) && h[m] < h[c]
    requires forall i :: 0 < i < |h| && Parent(i) == c ==> h[m] <= h[i]
    ensures SinksAt(Swapped(h, c, m), m)
  {
  }

  lemma {:induction false} RootIsLeast(h: seq<real>, i: nat)
    requires IsHeap(h) && i < |h|
    ensures h[0] <= h[i]
  {
    if i > 0 {
      RootIsLeast(h, Parent(i));
    }
  }

  /** Lets `x` rise from `start`, moving larger parents down. */
  method SiftUp(heap: array<real>, size: nat, start: nat, x: real)
    requires start < size <= heap.Length && RisesAt(heap[..size][start := x], start)
    modifies heap
    ensures IsHeap(heap[..size]) && multiset(heap[..size]) == multiset(old(heap[..size])[start := x])
  {
    hide IsHeap, RisesAt, Swapped;
    var c: nat := start;
    while c > 0 && heap[Parent(c)] > x
      invariant c < size && RisesAt(heap[..size][c := x], c)
      invariant multiset(heap[..size][c := x]) == multiset(old(heap[..size])[start := x])
    {
      ghost var was := heap[..size][c := x];
      heap[c] := heap[Parent(c)];
      assert heap[..size] == was[c := was[Parent(c)]];
      RisesOn(was, heap[..size], c, x);
      c := Parent(c);
    }
    heap[c] := x;
    assert heap[..size] == heap[..size][c := x];
    Risen(heap[..size], c);
  }

  lemma MovedHole(was: seq<real>, now: seq<real>, c: nat, m: nat, x: real)
    requires c < |was| && m < |was| && c != m && was[c] == x && now == was[c := was[m]]
    ensures now[m := x] == Swapped(was, c, m)
  {
  }

  lemma RisesOn(was: seq<real>, now: seq<real>, c: nat, x: real)
    requires 0 < c < |was| && RisesAt(was, c) && was[c] == x < was[Parent(c)] && now == was[c := was[Parent(c)]]
    ensures RisesAt(now[Parent(c) := x], Parent(c)) && multiset(now[Parent(c) := x]) == multiset(was)
  {
    Rises(was, c);
    SwapKeeps(was, c, Parent(c));
    MovedHole(was, now, c, Parent(c), x);
  }

  lemma SinksOn(was: seq<real>, now: seq<real>, c: nat, m: nat, x: real)
    requires c < m < |was| && Parent(m) == c && SinksAt(was, c) && was[m] < was[c] == x && now == was[c := was[m]]
    requires forall i :: 0 < i < |was| && Parent(i) == c ==> was[m] <= was[i]
    ensures SinksAt(now[m := x], m) && multiset(now[m := x]) == multiset(was)
  {
    Sinks(was, c, m);
    SwapKeeps(was, c, m);
    MovedHole(was, now, c, m, x);
  }

  lemma Risen(h: seq<real>, c: nat)
    requires c < |h| && RisesAt(h, c) && (c > 0 ==> h[Parent(c)] <= h[c])
    ensures IsHeap(h)
  {
  }

  lemma Sunk(h: seq<real>, c: nat)
    requires c < |h| && SinksAt(h, c) && forall i :: 0 < i < |h| && Parent(i) == c ==> h[c] <= h[i]
    ensures IsHeap(h)
  {
  }

  /** The least child of `c` that is below `x`, or `c` itself. */
  method LeastBelow(heap: array<real>, size: nat, c: nat, x: real) returns (m: nat)
    requires c < size <= heap.Length
    ensures m == c || (c < m < size && Parent(m) == c && heap[m] < x)
    ensures forall i :: 0 < i < size && Parent(i) == c ==> if m == c then x <= heap[i] else heap[m] <= heap[i]
  {
    var left, right := 2 * c + 1, 2 * c + 2;
    m := c;
    var lowest := x;
    if left < size && heap[left] < lowest {
      m, lowest := left, heap[left];
    }
    if right < size && heap[right] < lowest {
      m := right;
    }
    assert forall i :: 0 < i < size && Parent(i) == c ==> i == left || i == right;
  }

  /** Lets `x` take the root's place and sink, moving smaller children up. */
  method SiftDown(heap: array<real>, size: nat, x: real)
    requires 0 < size <= heap.Length && IsHeap(heap[..size])
    modifies heap
    ensures IsHeap(heap[..size]) && multiset(heap[..size]) == multiset(old(heap[..size])[0 := x])
  {
    SinksFromRoot(heap[..size], x);
    hide IsHeap, SinksAt, Swapped;
    var c: nat := 0;
    while true
      invariant c < size && SinksAt(heap[..size][c := x], c)
      invariant multiset(heap[..size][c := x]) == multiset(old(heap[..size])[0 := x])
      decreases size - c
    {
      var m := LeastBelow(heap, size, c, x);
      ghost var was := heap[..size][c := x];
      if m == c {
        break;
      }
      heap[c] := heap[m];
      assert heap[..size] == was[c := was[m]];
      SinksOn(was, heap[..size], c, m, x);
      c := m;
    }
    ghost var whole := heap[..size][c := x];
    Sunk(whole, c);
    heap[c] := x;
    assert heap[..size] == whole;
  }

  lemma SinksFromRoot(h: seq<real>, x: real)
    requires h != [] && IsHeap(h)
    ensures SinksAt(h[0 := x], 0)
  {
  }

  // the k-th largest

  /** How many values are at least `t`, or above it. */
  function AtLeast(s: seq<real>, t: real): nat {
    if s == [] then 0 else AtLeast(s[..|s| - 1], t) + if s[|s| - 1] >= t then 1 else 0
  }

  function Greater(s: seq<real>, t: real): nat {
    if s == [] then 0 else Greater(s[..|s| - 1], t) + if s[|s| - 1] > t then 1 else 0
  }

  /** In the sorted values `r` stands at place `k` from the top. */
  predicate IsKthLargest(s: seq<real>, k: nat, r: real) {
    r in s && Greater(s, r) < k <= AtLeast(s, r)
  }

  lemma {:induction false} CountsJoin(a: seq<real>, b: seq<real>, t: real)
    ensures AtLeast(a + b, t) == AtLeast(a, t) + AtLeast(b, t) && Greater(a + b, t) == Greater(a, t) + Greater(b, t)
  {
    if b == [] {
      assert a + b == a;
    } else {
      CountsJoin(a, b[..|b| - 1], t);
      assert (a + b)[..|a + b| - 1] == a + b[..|b| - 1];
    }
  }

  /** Counting does not depend on the order. */
  lemma {:induction false} CountsPermute(a: seq<real>, b: seq<real>, t: real)
    requires multiset(a) == multiset(b)
    ensures AtLeast(a, t) == AtLeast(b, t) && Greater(a, t) == Greater(b, t)
    decreases |a|
  {
    if a != [] {
      var x, rest := a[|a| - 1], a[..|a| - 1];
      assert a == rest + [x];
      assert x in multiset(a);
      var less := TakenOut(b, x, t);
      assert multiset(rest) == multiset(a) - multiset{x};
      CountsPermute(rest, less, t);
      CountsJoin(rest, [x], t);
    } else {
      assert |multiset(b)| == 0;
    }
  }

  lemma TakenOut(b: seq<real>, x: real, t: real) returns (less: seq<real>)
    requires x in multiset(b)
    ensures multiset(less) == multiset(b) - multiset{x}
    ensures AtLeast(b, t) == AtLeast(less, t) + AtLeast([x], t) && Greater(b, t) == Greater(less, t) + Greater([x], t)
  {
    hide AtLeast, Greater;
    var i :| 0 <= i < |b| && b[i] == x;
    less := b[..i] + b[i + 1..];
    assert b == b[..i] + [x] + b[i + 1..];
    CountsJoin(b[..i] + [x], b[i + 1..], t);
    CountsJoin(b[..i], [x], t);
    CountsJoin(b[..i], b[i + 1..], t);
  }

  lemma {:induction false} CountsBound(s: seq<real>, t: real)
    ensures (forall x :: x in s ==> x >= t) ==> AtLeast(s, t) == |s|
    ensures (forall x :: x in s ==> x <= t) ==> Greater(s, t) == 0
    ensures t in s ==> Greater(s, t) < |s|
    ensures Greater(s, t) <= |s|
  {
    if s != [] {
      var rest, last := s[..|s| - 1], s[|s| - 1];
      CountsBound(rest, t);
      assert s == rest + [last];
      assert last in s && forall x :: x in rest ==> x in s;
    }
  }

  lemma {:induction false} CountsOrder(s: seq<real>, t: real, t': real)
    requires t < t'
    ensures AtLeast(s, t') <= Greater(s, t)
  {
    if s != [] {
      CountsOrder(s[..|s| - 1], t, t');
    }
  }

  /** There is one such value. */
  lemma KthLargestIsUnique(s: seq<real>, k: nat, r: real, r': real)
    requires IsKthLargest(s, k, r) && IsKthLargest(s, k, r')
    ensures r == r'
  {
    if r < r' {
      CountsOrder(s, r, r');
    } else if r' < r {
      CountsOrder(s, r', r);
    }
  }

  /** The heap's root, when the heap keeps the largest and nothing dropped is above it. */
  lemma RootIsKth(heap: seq<real>, dropped: seq<real>, values: seq<real>)
    requires heap != [] && IsHeap(heap) && multiset(heap + dropped) == multiset(values)
    requires forall x :: x in dropped ==> x <= heap[0]
    ensures IsKthLargest(values, |heap|, heap[0])
  {
    var r := heap[0];
    forall x | x in heap ensures x >= r {
      var i :| 0 <= i < |heap| && heap[i] == x;
      RootIsLeast(heap, i);
    }
    CountsPermute(heap + dropped, values, r);
    CountsJoin(heap, dropped, r);
    CountsBound(heap, r);
    CountsBound(dropped, r);
    assert r in multiset(heap + dropped);
  }

  /** The heap holds the `k` largest of `seen`, and nothing dropped is above its root. */
  ghost predicate Keeps(h: seq<real>, dropped: seq<real>, seen: seq<real>, k: nat) {
    && |h| == (if |seen| < k then |seen| else k)
    && IsHeap(h) && multiset(h + dropped) == multiset(seen)
    && (|h| < k ==> dropped == [])
    && forall y :: y in dropped ==> h != [] && y <= h[0]
  }

  /** One value of the pass: into a heap with room, in place of a smaller root, or dropped. */
  method Consider(heap: array<real>, size: nat, k: nat, x: real, ghost dropped: seq<real>, ghost seen: seq<real>)
    returns (size': nat, ghost dropped': seq<real>)
    requires size <= k == heap.Length && k > 0 && Keeps(heap[..size], dropped, seen, k)
    modifies heap
    ensures size <= size' <= k && Keeps(heap[..size'], dropped', seen + [x], k)
  {
    size', dropped' := size, dropped;
    ghost var was := heap[..size];
    hide IsHeap, RisesAt, SinksAt;
    if size < k {
      size' := size + 1;
      Grown(was, heap[..size'], x);
      SiftUp(heap, size', size, x);
      Kept(was, heap[..size'], seen, x, k);
    } else if x > heap[0] {
      SiftDown(heap, size, x);
      Replaced(was, heap[..size], dropped, seen, x, k);
      dropped' := dropped + [was[0]];
    } else {
      Ignored(was, dropped, seen, x, k);
      dropped' := dropped + [x];
    }
  }

  lemma Ignored(h: seq<real>, dropped: seq<real>, seen: seq<real>, x: real, k: nat)
    requires Keeps(h, dropped, seen, k) && |h| == k > 0 && x <= h[0]
    ensures Keeps(h, dropped + [x], seen + [x], k)
  {
    assert h + (dropped + [x]) == (h + dropped) + [x];
    assert |multiset(h + dropped)| == |h| + |dropped|;
    hide IsHeap;
  }

  /** Smallest of the `k` largest values (of all of them, if there are fewer). */
  method KthLargest(values: seq<real>, k: nat) returns (r: real)
    requires k > 0 && values != []
    ensures IsKthLargest(values, if k < |values| then k else |values|, r)
  {
    hide IsHeap, IsKthLargest;
    var heap := new real[k];
    var size: nat := 0;
    ghost var dropped: seq<real> := [];
    NothingSeen(k);
    for idx := 0 to |values|
      invariant size <= k && Keeps(heap[..size], dropped, values[..idx], k)
    {
      assert values[..idx + 1] == values[..idx] + [values[idx]];
      size, dropped := Consider(heap, size, k, values[idx], dropped, values[..idx]);
    }
    r := heap[0];
    assert values[..|values|] == values;
    RootIsKth(heap[..size], dropped, values);
  }

  lemma NothingSeen(k: nat)
    ensures Keeps([], [], [], k)
  {
  }

  lemma Grown(was: seq<real>, now: seq<real>, x: real)
    requires |now| == |was| + 1 && now[..|was|] == was && IsHeap(was)
    ensures now[|was| := x] == was + [x] && RisesAt(now[|was| := x], |was|)
  {
  }

  lemma Kept(was: seq<real>, now: seq<real>, seen: seq<real>, x: real, k: nat)
    requires Keeps(was, [], seen, k) && |was| < k && IsHeap(now) && multiset(now) == multiset(was + [x])
    ensures Keeps(now, [], seen + [x], k)
  {
    assert was + [] == was && now + [] == now;
    assert |now| == |multiset(now)| == |was| + 1;
  }

  /** After a larger value took the root's place, the old root is below the new one. */
  lemma Replaced(was: seq<real>, now: seq<real>, dropped: seq<real>, seen: seq<real>, x: real, k: nat)
    requires Keeps(was, dropped, seen, k) && |was| == k > 0 && x > was[0]
    requires IsHeap(now) && multiset(now) == multiset(was[0 := x])
    ensures Keeps(now, dropped + [was[0]], seen + [x], k)
  {
    assert |now| == |multiset(now)| == |was|;
    assert multiset(was[0 := x]) == multiset(was) - multiset{was[0]} + multiset{x};
    LeastIsBelow(was, now, x);
  }

  lemma LeastIsBelow(was: seq<real>, now: seq<real>, x: real)
    requires was != [] && now != [] && IsHeap(was) && x > was[0] && multiset(now) == multiset(was[0 := x])
    ensures was[0] <= now[0]
  {
    assert now[0] in multiset(now);
    var i :| 0 <= i < |was| && was[0 := x][i] == now[0];
    RootIsLeast(was, i);
  }
}
