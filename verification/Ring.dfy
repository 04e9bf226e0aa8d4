/** Circular doubly linked rings over a store of nodes.  The matching engine takes its nodes
    from fixed pools, so a pointer is the number of a pool block and 0 is the null pointer. */
module Ring {
  import opened Seqs

  type Ptr = nat

  const NULL: Ptr := 0

  datatype Node<+T> = Node(val: T, prev: Ptr, next: Ptr)

  type Heap<+T> = map<Ptr, Node<T>>

  function SetNext<T>(h: Heap<T>, p: Ptr, q: Ptr): Heap<T>
    requires p in h
  {
    h[p := h[p].(next := q)]
  }

  function SetPrev<T>(h: Heap<T>, p: Ptr, q: Ptr): Heap<T>
    requires p in h
  {
    h[p := h[p].(prev := q)]
  }

  function Following(s: seq<Ptr>, i: nat): Ptr
    requires i < |s|
  {
    if i + 1 == |s| then s[0] else s[i + 1]
  }

  function Preceding(s: seq<Ptr>, i: nat): Ptr
    requires i < |s|
  {
    if i == 0 then s[|s| - 1] else s[i - 1]
  }

  predicate Distinct(s: seq<Ptr>) {
    forall i, j :: 0 <= i < j < |s| ==> s[i] != s[j]
  }

  /** `s` is a closed cycle: next_ goes through it in order, prev_ in the opposite order. */
  ghost predicate IsRing<T>(h: Heap<T>, s: seq<Ptr>) {
    && Distinct(s)
    && forall i :: 0 <= i < |s| ==> s[i] in h && h[s[i]].next == Following(s, i) && h[s[i]].prev == Preceding(s, i)
  }

  /** The four writes that link `p` in just before `t`. */
  ghost predicate LinkedBefore<T>(h: Heap<T>, h': Heap<T>, t: Ptr, p: Ptr)
    requires t in h
  {
    && h'.Keys == h.Keys
    && forall q :: q in h ==> h'[q] == Node(h[q].val,
         if q == p then h[t].prev else if q == t then p else h[q].prev,
         if q == p then t else if q == h[t].prev then p else h[q].next)
  }

  /** The writes that unlink `p`; what becomes of its own links does not matter. */
  ghost predicate Unlinked<T>(h: Heap<T>, h': Heap<T>, p: Ptr)
    requires p in h
  {
    && h'.Keys >= h.Keys - {p}
    && forall q :: q in h && q != p ==> h'[q] == Node(h[q].val,
         if q == h[p].next then h[p].prev else h[q].prev,
         if q == h[p].prev then h[p].next else h[q].next)
  }

  function PredIndex(n: nat, i: nat): nat
    requires i < n
  {
    if i == 0 then n - 1 else i - 1
  }

  /** Neighbours of an old element once `p` stands before `s[i]`. */
  lemma InsertNeighbours(s: seq<Ptr>, i: nat, p: Ptr, j: nat)
    requires i < |s| && j < |s|
    ensures
      var s' := InsertAt(s, i, p);
      var k := if j < i then j else j + 1;
      && s'[k] == s[j]
      && Following(s', k) == (if j == PredIndex(|s|, i) then p else Following(s, j))
      && Preceding(s', k) == (if j == i then p else Preceding(s, j))
  {
  }

  lemma DropNeighbours(s: seq<Ptr>, i: nat, j: nat)
    requires i < |s| && j < |s| && i != j && |s| > 1
    ensures
      var s' := DropAt(s, i);
      var k := if j < i then j else j - 1;
      && s'[k] == s[j]
      && Following(s', k) == (if j == PredIndex(|s|, i) then Following(s, i) else Following(s, j))
      && Preceding(s', k) == (if PredIndex(|s|, j) == i then Preceding(s, i) else Preceding(s, j))
  {
  }

  /** Position of an element of a ring among its neighbours' links. */
  lemma NeighbourIndex(s: seq<Ptr>, i: nat, j: nat)
    requires Distinct(s) && i < |s| && j < |s|
    ensures s[j] == Preceding(s, i) <==> j == PredIndex(|s|, i)
    ensures s[j] == Following(s, i) <==> PredIndex(|s|, j) == i
  {
  }

  lemma RingInsert<T>(h: Heap<T>, h': Heap<T>, s: seq<Ptr>, i: nat, p: Ptr)
    requires IsRing(h, s) && i < |s| && p in h && p !in s && LinkedBefore(h, h', s[i], p)
    ensures IsRing(h', InsertAt(s, i, p))
    ensures i == 0 ==> IsRing(h', s + [p])
  {
    hide Following, Preceding;
    var s' := InsertAt(s, i, p);
    forall k | 0 <= k < |s'| ensures s'[k] in h' && h'[s'[k]].next == Following(s', k) && h'[s'[k]].prev == Preceding(s', k) {
      if k == i {
        InsertedNeighbours(s, i, p);
      } else {
        var j := if k < i then k else k - 1;
        InsertNeighbours(s, i, p, j);
        NeighbourIndex(s, i, j);
      }
    }
    InsertDistinct(s, i, p);
    if i == 0 {
      assert s' == [p] + s;
      RingRotate(h', p, s);
    }
  }

  lemma InsertedNeighbours(s: seq<Ptr>, i: nat, p: Ptr)
    requires i < |s|
    ensures
      var s' := InsertAt(s, i, p);
      s'[i] == p && Following(s', i) == s[i] && Preceding(s', i) == Preceding(s, i)
  {
  }

  lemma InsertDistinct(s: seq<Ptr>, i: nat, p: Ptr)
    requires Distinct(s) && i <= |s| && p !in s
    ensures Distinct(InsertAt(s, i, p))
  {
    var s' := InsertAt(s, i, p);
    forall j, k | 0 <= j < k < |s'| ensures s'[j] != s'[k] {
      assert j != i ==> s'[j] == s[if j < i then j else j - 1];
      assert k != i ==> s'[k] == s[if k < i then k else k - 1];
    }
  }

  lemma DropDistinct(s: seq<Ptr>, i: nat)
    requires Distinct(s) && i < |s|
    ensures Distinct(DropAt(s, i)) && s[i] !in DropAt(s, i)
    ensures forall q :: q in s <==> q in DropAt(s, i) || q == s[i]
  {
    var s' := DropAt(s, i);
    forall k | 0 <= k < |s'| ensures s'[k] == s[if k < i then k else k + 1] { }
    forall q | q in s && q != s[i] ensures q in s' {
      var j :| 0 <= j < |s| && s[j] == q;
      assert s'[if j < i then j else j - 1] == q;
    }
  }

  lemma RotateNeighbours(s: seq<Ptr>, p: Ptr, j: nat)
    requires j <= |s|
    ensures
      var s' := s + [p];
      var k := if j == 0 then |s| else j - 1;
      s'[k] == ([p] + s)[j] && Following(s', k) == Following([p] + s, j) && Preceding(s', k) == Preceding([p] + s, j)
  {
  }

  /** A ring may be read from its second element on, the first one last. */
  lemma RingRotate<T>(h: Heap<T>, p: Ptr, s: seq<Ptr>)
    requires IsRing(h, [p] + s)
    ensures IsRing(h, s + [p])
  {
    hide Following, Preceding;
    var s' := s + [p];
    forall k | 0 <= k < |s'| ensures s'[k] in h && h[s'[k]].next == Following(s', k) && h[s'[k]].prev == Preceding(s', k) {
      RotateNeighbours(s, p, if k == |s| then 0 else k + 1);
    }
    forall j, k | 0 <= j < k < |s'| ensures s'[j] != s'[k] {
      assert s'[j] == ([p] + s)[if j == |s| then 0 else j + 1] && s'[k] == ([p] + s)[if k == |s| then 0 else k + 1];
    }
  }

  lemma RingDrop<T>(h: Heap<T>, h': Heap<T>, s: seq<Ptr>, i: nat)
    requires IsRing(h, s) && i < |s| && |s| > 1 && Unlinked(h, h', s[i])
    ensures IsRing(h', DropAt(s, i))
  {
    hide Following, Preceding;
    var s' := DropAt(s, i);
    forall k | 0 <= k < |s'| ensures s'[k] in h' && h'[s'[k]].next == Following(s', k) && h'[s'[k]].prev == Preceding(s', k) {
      var j := if k < i then k else k + 1;
      DropNeighbours(s, i, j);
      NeighbourIndex(s, i, j);
    }
    DropDistinct(s, i);
  }

  /** A ring of one element is linked to itself, and only such a ring is. */
  lemma RingSingle<T>(h: Heap<T>, s: seq<Ptr>, i: nat)
    requires IsRing(h, s) && i < |s|
    ensures |s| == 1 <==> h[s[i]].prev == s[i]
    ensures |s| == 1 <==> h[s[i]].next == s[i]
  {
    NeighbourIndex(s, i, i);
  }

  /** A ring is untouched by a change that keeps its own links. */
  lemma RingFrame<T>(h: Heap<T>, h': Heap<T>, s: seq<Ptr>)
    requires IsRing(h, s)
    requires forall q :: q in s ==> q in h' && h'[q].prev == h[q].prev && h'[q].next == h[q].next
    ensures IsRing(h', s)
  {
    hide Following, Preceding;
  }
}
