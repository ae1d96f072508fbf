// Resource lists: circular doubly linked rings of intrusive nodes (util.h).
//
// The nodes are heap objects.  What a set of nodes looks like at one moment is a
// `Links` value; the shape theorems about splicing are lemmas about `Links`, and
// every in-place operation is a method tied to them.

module Rings {
  import opened Lists

  // struct resource_list_node: the key and the two list pointers.
  class RNode {
    const key: int
    var prev: RNode
    var next: RNode

    // rlnode_init: a singleton ring.
    constructor (key: int)
      ensures prev == this && next == this && this.key == key
    {
      this.key := key;
      prev := this;
      next := this;
    }
  }

  datatype Links = Links(next: map<RNode, RNode>, prev: map<RNode, RNode>)

  /** `l` is what the pointers of the nodes in `S` are now. */
  ghost predicate Shows(S: set<RNode>, l: Links)
    reads S
  {
    && (forall n | n in S :: n in l.next && n in l.prev)
    && (forall n | n in l.next :: n in S)
    && (forall n | n in l.prev :: n in S)
    && (forall n {:trigger n.next} {:trigger l.next[n]} | n in S :: l.next[n] == n.next)
    && (forall n {:trigger n.prev} {:trigger l.prev[n]} | n in S :: l.prev[n] == n.prev)
  }

  /** The nodes are closed under both pointers, and the pointers are mutually inverse. */
  ghost predicate WellFormed(l: Links) {
    && (forall n {:trigger l.next[n] in l.prev} | n in l.next :: l.next[n] in l.prev)
    && (forall n {:trigger l.prev[n] in l.next} | n in l.prev :: l.prev[n] in l.next)
    && (forall n {:trigger l.prev[l.next[n]]} | n in l.next :: l.prev[l.next[n]] == n)
    && (forall n {:trigger l.next[l.prev[n]]} | n in l.prev :: l.next[l.prev[n]] == n)
  }

  ghost function First(r: seq<RNode>, end: RNode): RNode {
    if r == [] then end else r[0]
  }

  /** Following `next` visits the nodes of `r` one by one and then arrives at `end`. */
  ghost predicate Walk(l: Links, r: seq<RNode>, end: RNode) {
    && (forall i {:trigger r[i] in l.next} | 0 <= i < |r| :: r[i] in l.next)
    && (forall i {:trigger l.next[r[i]]} | 0 <= i < |r| :: l.next[r[i]] == if i + 1 < |r| then r[i + 1] else end)
  }

  /** `r` lists one whole ring, in `next` order, starting from any of its nodes. */
  ghost predicate IsRing(l: Links, r: seq<RNode>) {
    r != [] && Distinct(r) && Walk(l, r, r[0])
  }

  /** The list with sentinel `list` holds exactly the nodes `xs`, in order. */
  ghost predicate IsList(l: Links, list: RNode, xs: seq<RNode>) {
    IsRing(l, [list] + xs)
  }

  ghost predicate Disjoint(r: seq<RNode>, s: seq<RNode>) {
    forall n | n in r :: n !in s
  }

  // ---------------------------------------------------------------- splicing

  /** rlnode_swap on two cells of a pointer field. */
  ghost function Swap<K, V>(m: map<K, V>, i: K, j: K): map<K, V>
    requires i in m && j in m
  {
    m[i := m[j]][j := m[i]]
  }

  /** rl_splice: swap the prev fields of the two successors, then the two next fields. */
  ghost function Splice(l: Links, a: RNode, b: RNode): Links
    requires WellFormed(l) && a in l.next && b in l.next
  {
    Links(Swap(l.next, a, b), Swap(l.prev, l.next[a], l.next[b]))
  }

  lemma SpliceKeepsLinks(l: Links, a: RNode, b: RNode)
    requires WellFormed(l) && a in l.next && b in l.next
    ensures WellFormed(Splice(l, a, b))
  {
    var m := Splice(l, a, b);
    forall n | n in m.next ensures m.next[n] in m.prev && m.prev[m.next[n]] == n {
      assert l.prev[l.next[n]] == n;
    }
    forall n | n in m.prev ensures m.prev[n] in m.next && m.next[m.prev[n]] == n {
      assert l.next[l.prev[n]] == n;
    }
  }

  lemma SwapTwice<K, V>(m: map<K, V>, i: K, j: K)
    requires i in m && j in m
    ensures Swap(Swap(m, i, j), i, j) == m && Swap(Swap(m, i, j), j, i) == m
  {
  }

  lemma SpliceUndoesItself(l: Links, a: RNode, b: RNode)
    requires WellFormed(l) && a in l.next && b in l.next
    ensures WellFormed(Splice(l, a, b))
    ensures Splice(Splice(l, a, b), a, b) == l
  {
    SpliceKeepsLinks(l, a, b);
    SwapTwice(l.next, a, b);
    SwapTwice(l.prev, l.next[a], l.next[b]);
  }

  lemma WalkConcat(l: Links, x: seq<RNode>, y: seq<RNode>, end: RNode)
    ensures Walk(l, x + y, end) <==> Walk(l, x, First(y, end)) && Walk(l, y, end)
  {
    var r := x + y;
    if Walk(l, r, end) {
      assert forall i | 0 <= i < |x| :: x[i] == r[i];
      assert forall i | 0 <= i < |y| :: y[i] == r[|x| + i];
    }
    if Walk(l, x, First(y, end)) && Walk(l, y, end) {
      assert forall i | 0 <= i < |r| :: r[i] == if i < |x| then x[i] else y[i - |x|];
    }
  }

  /** Only the two spliced nodes get a new successor. */
  lemma WalkKept(l: Links, a: RNode, b: RNode, r: seq<RNode>, end: RNode)
    requires WellFormed(l) && a in l.next && b in l.next
    requires Walk(l, r, end) && a !in r && b !in r
    ensures Walk(Splice(l, a, b), r, end)
  {
    assert forall i | 0 <= i < |r| :: Splice(l, a, b).next[r[i]] == l.next[r[i]];
  }

  /** The part of a ring after its first node, seen as a walk back to that node. */
  lemma RingTail(l: Links, a: RNode, x: seq<RNode>)
    requires IsRing(l, [a] + x)
    ensures a in l.next && l.next[a] == First(x, a) && Walk(l, x, a)
    ensures a !in x && Distinct(x)
  {
    WalkConcat(l, [a], x, a);
    assert l.next[[a][0]] == First(x, a);
    DistinctParts([a], x);
  }

  lemma WalkCons(l: Links, a: RNode, x: seq<RNode>, end: RNode)
    requires a in l.next && l.next[a] == First(x, end) && Walk(l, x, end)
    ensures Walk(l, [a] + x, end)
  {
    WalkConcat(l, [a], x, end);
  }

  /** Nodes of two different rings: [a, x..] [b, y..] becomes [a, y.., b, x..]. */
  lemma SpliceJoins(l: Links, a: RNode, x: seq<RNode>, b: RNode, y: seq<RNode>)
    requires WellFormed(l) && IsRing(l, [a] + x) && IsRing(l, [b] + y)
    requires b !in [a] + x
    ensures a in l.next && b in l.next
    ensures IsRing(Splice(l, a, b), [a] + y + ([b] + x))
  {
    RingTail(l, a, x);
    RingTail(l, b, y);
    assert Disjoint([b] + y, [a] + x) by {
      assert ([b] + y)[0] == b;
      RingsSameOrDisjoint(l, [a] + x, [b] + y);
    }
    assert a !in y by { assert ([a] + x)[0] == a && forall n | n in y :: n in [b] + y; }
    assert Disjoint(y, x) by { assert forall n | n in y :: n in [b] + y; }
    var t := Splice(l, a, b);
    WalkKept(l, a, b, x, a);
    WalkKept(l, a, b, y, b);
    JoinedWalk(t, a, x, b, y);
    JoinedDistinct(a, x, b, y);
  }

  lemma JoinedWalk(t: Links, a: RNode, x: seq<RNode>, b: RNode, y: seq<RNode>)
    requires a in t.next && b in t.next && t.next[a] == First(y, b) && t.next[b] == First(x, a)
    requires Walk(t, x, a) && Walk(t, y, b)
    ensures Walk(t, [a] + y + ([b] + x), a)
  {
    WalkCons(t, b, x, a);
    WalkConcat(t, y, [b] + x, a);
    WalkCons(t, a, y + ([b] + x), a);
    assert [a] + (y + ([b] + x)) == [a] + y + ([b] + x);
  }

  lemma JoinedDistinct(a: RNode, x: seq<RNode>, b: RNode, y: seq<RNode>)
    requires Distinct(x) && Distinct(y) && Disjoint(y, x)
    requires a != b && a !in x && a !in y && b !in x && b !in y
    ensures Distinct([a] + y + ([b] + x))
  {
    DistinctConcat([a], y);
    DistinctConcat([b], x);
    DistinctConcat([a] + y, [b] + x);
  }

  /** Nodes of one ring: [a, x.., b, y..] becomes [a, y..] [b, x..]. */
  lemma SpliceSplits(l: Links, a: RNode, x: seq<RNode>, b: RNode, y: seq<RNode>)
    requires WellFormed(l) && IsRing(l, [a] + x + ([b] + y))
    ensures a in l.next && b in l.next
    ensures IsRing(Splice(l, a, b), [a] + y) && IsRing(Splice(l, a, b), [b] + x)
    ensures Disjoint([a] + y, [b] + x)
  {
    assert [a] + x + ([b] + y) == [a] + (x + ([b] + y));
    RingTail(l, a, x + ([b] + y));
    WalkConcat(l, x, [b] + y, a);
    WalkConcat(l, [b], y, a);
    assert l.next[([b] + y)[0]] == First(y, a);
    DistinctParts(x, [b] + y);
    DistinctParts([b], y);
    assert b in [b] + y && forall n | n in y :: n in [b] + y;
    assert forall n | n in x + ([b] + y) :: n != a;
    assert a !in x && a !in y && a != b && b !in x;
    var t := Splice(l, a, b);
    WalkKept(l, a, b, x, b);
    WalkKept(l, a, b, y, a);
    WalkCons(t, a, y, a);
    WalkCons(t, b, x, b);
    DistinctConcat([a], y);
    DistinctConcat([b], x);
  }

  lemma DistinctParts(x: seq<RNode>, y: seq<RNode>)
    requires Distinct(x + y)
    ensures Distinct(x) && Distinct(y) && Disjoint(x, y) && Disjoint(y, x)
    ensures |x| == 1 ==> x[0] !in y
    ensures |y| == 1 ==> y[0] !in x
  {
    var r := x + y;
    assert forall i | 0 <= i < |x| :: x[i] == r[i];
    assert forall i | 0 <= i < |y| :: y[i] == r[|x| + i];
  }

  /** The aliasing case a == b changes nothing. */
  lemma SpliceWithItself(l: Links, a: RNode)
    requires WellFormed(l) && a in l.next
    ensures Splice(l, a, a) == l
  {
  }

  /** Rings holding neither argument are untouched. */
  lemma SpliceKeepsOtherRings(l: Links, a: RNode, b: RNode, r: seq<RNode>)
    requires WellFormed(l) && a in l.next && b in l.next
    requires IsRing(l, r) && a !in r && b !in r
    ensures IsRing(Splice(l, a, b), r)
  {
    WalkKept(l, a, b, r, r[0]);
  }

  /** Outside the nodes in `f` no pointer differs between l and m. */
  ghost predicate SameOutside(l: Links, m: Links, f: set<RNode>) {
    && m.next.Keys == l.next.Keys && m.prev.Keys == l.prev.Keys
    && (forall n {:trigger m.next[n]} | n in l.next && n !in f :: m.next[n] == l.next[n])
    && (forall n {:trigger m.prev[n]} | n in l.prev && n !in f :: m.prev[n] == l.prev[n])
  }

  /** So every ring without those nodes is still one. */
  lemma OtherRingsStay(l: Links, m: Links, f: set<RNode>, r: seq<RNode>)
    requires SameOutside(l, m, f) && IsRing(l, r) && forall n | n in r :: n !in f
    ensures IsRing(m, r)
  {
    assert forall i | 0 <= i < |r| :: r[i] in l.next && m.next[r[i]] == l.next[r[i]];
  }

  lemma SameOutsideRefl(l: Links, f: set<RNode>)
    ensures SameOutside(l, l, f)
  {
  }

  lemma SameOutsideTrans(k: Links, l: Links, m: Links, f: set<RNode>)
    requires SameOutside(k, l, f) && SameOutside(l, m, f)
    ensures SameOutside(k, m, f)
  {
  }

  lemma SpliceSameOutside(l: Links, a: RNode, b: RNode, f: set<RNode>)
    requires WellFormed(l) && a in l.next && b in l.next && a in f && b in f && l.next[a] in f && l.next[b] in f
    ensures SameOutside(l, Splice(l, a, b), f)
  {
  }

  /** The neighbours of a node are in its ring. */
  lemma RingNeighbours(l: Links, r: seq<RNode>, n: RNode)
    requires WellFormed(l) && IsRing(l, r) && n in r
    ensures n in l.next && l.next[n] in r && n in l.prev && l.prev[n] in r && l.prev[n] in l.next
  {
    var i :| 0 <= i < |r| && r[i] == n;
    assert r[i] in l.next && l.next[r[i]] == if i + 1 < |r| then r[i + 1] else r[0];
    PredecessorAt(l, r, i);
  }

  /** Rings partition the nodes: two rings have the same nodes or none in common. */
  lemma RingsSameOrDisjoint(l: Links, r: seq<RNode>, s: seq<RNode>)
    requires IsRing(l, r) && IsRing(l, s)
    ensures Disjoint(r, s) || (forall n | n in s :: n in r)
  {
    if n :| n in r && n in s {
      var k :| 0 <= k < |s| && s[k] == n;
      InsideFrom(l, r, s, k, |s|);
      assert s[0] in r;
      InsideFrom(l, r, s, 0, |s|);
    }
  }

  lemma {:induction false} InsideFrom(l: Links, r: seq<RNode>, s: seq<RNode>, k: nat, e: nat)
    requires IsRing(l, r) && IsRing(l, s)
    requires k < e <= |s| && s[k] in r
    ensures forall i | k <= i < e :: s[i] in r
    ensures e == |s| ==> s[0] in r
    decreases e - k
  {
    var i :| 0 <= i < |r| && r[i] == s[k];
    assert l.next[s[k]] in r;
    if k + 1 < e {
      InsideFrom(l, r, s, k + 1, e);
    }
  }

  /** [x.., y..] and [y.., x..] describe the same ring. */
  lemma Rotate(l: Links, x: seq<RNode>, y: seq<RNode>)
    requires IsRing(l, x + y)
    ensures IsRing(l, y + x)
  {
    if x == [] || y == [] {
      assert y + x == x + y;
    } else {
      assert (x + y)[0] == x[0] && (y + x)[0] == y[0];
      WalkConcat(l, x, y, x[0]);
      WalkConcat(l, y, x, y[0]);
      DistinctParts(x, y);
      DistinctConcat(y, x);
    }
  }

  lemma LastIsPrev(l: Links, x: seq<RNode>, z: RNode)
    requires WellFormed(l) && IsRing(l, x + [z])
    ensures (x + [z])[0] in l.prev && l.prev[(x + [z])[0]] == z
  {
    var r := x + [z];
    assert l.next[r[|x|]] == r[0];
  }

  lemma PrevOfFirst(l: Links, r: seq<RNode>)
    requires WellFormed(l) && IsRing(l, r)
    ensures r[0] in l.prev && l.prev[r[0]] == r[|r| - 1] && l.prev[r[0]] in l.next
  {
    assert r == r[..|r| - 1] + [r[|r| - 1]];
    LastIsPrev(l, r[..|r| - 1], r[|r| - 1]);
  }

  // ------------------------------------------- the derived list operations

  // Every derived operation is one splice; these lemmas say what it does to lists.

  /** push_front splices at the sentinel: the ring [node, ys..] ends up as ys.., node in front. */
  lemma PushFrontRefines(l: Links, list: RNode, xs: seq<RNode>, node: RNode, ys: seq<RNode>)
    requires WellFormed(l) && IsList(l, list, xs) && IsRing(l, [node] + ys)
    requires node !in [list] + xs
    ensures list in l.next && node in l.next
    ensures IsList(Splice(l, list, node), list, ys + [node] + xs)
  {
    SpliceJoins(l, list, xs, node, ys);
    assert [list] + (ys + [node] + xs) == [list] + ys + ([node] + xs);
  }

  /** push_back splices at the sentinel's predecessor: ys.., node end up at the back. */
  lemma PushBackRefines(l: Links, list: RNode, xs: seq<RNode>, node: RNode, ys: seq<RNode>)
    requires WellFormed(l) && IsList(l, list, xs) && IsRing(l, [node] + ys)
    requires node !in [list] + xs
    ensures list in l.prev && node in l.next && l.prev[list] in l.next
    ensures IsList(Splice(l, l.prev[list], node), list, xs + (ys + [node]))
  {
    var r := [list] + xs;
    var front, p := r[..|xs|], r[|xs|];
    assert r == front + [p] && r[0] == list;
    LastIsPrev(l, front, p);
    Rotate(l, front, [p]);
    assert node !in [p] + front;
    SpliceJoins(l, p, front, node, ys);
    assert [p] + ys + ([node] + front) == ([p] + ys + [node]) + front;
    Rotate(Splice(l, p, node), [p] + ys + [node], front);
    assert front + ([p] + ys + [node]) == r + (ys + [node]) == [list] + (xs + (ys + [node]));
  }

  /** remove takes a node out of whatever ring holds it and leaves it a singleton. */
  lemma RemoveRefines(l: Links, pre: seq<RNode>, node: RNode, post: seq<RNode>)
    requires WellFormed(l) && IsRing(l, pre + ([node] + post))
    ensures node in l.next && node in l.prev && l.prev[node] in l.next
    ensures IsRing(Splice(l, node, l.prev[node]), [node])
    ensures pre + post != [] ==> IsRing(Splice(l, node, l.prev[node]), pre + post)
    ensures node !in pre + post
  {
    hide IsRing, WellFormed;
    Rotate(l, pre, [node] + post);
    var rest := post + pre;
    assert [node] + post + pre == [node] + rest;
    RingTail(l, node, rest);
    PrevOfFirst(l, [node] + rest);
    if rest == [] {
      assert [node] + rest == [node];
      SpliceWithItself(l, node);
    } else {
      var x, z := rest[..|rest| - 1], rest[|rest| - 1];
      assert [node] + rest == [node] + x + ([z] + []) && ([node] + rest)[|rest|] == z;
      SpliceSplits(l, node, x, z, []);
      var t := Splice(l, node, z);
      assert [node] + [] == [node] && x + [z] == rest;
      Rotate(t, [z], x);
      Rotate(t, post, pre);
    }
  }

  /** pop_front splices the sentinel with its successor; on an empty list that is no change. */
  lemma PopFrontRefines(l: Links, list: RNode, xs: seq<RNode>)
    requires WellFormed(l) && IsList(l, list, xs)
    ensures list in l.next && l.next[list] in l.next
    ensures var m := Splice(l, list, l.next[list]);
            if xs == [] then l.next[list] == list && m == l
            else l.next[list] == xs[0] && IsList(m, list, xs[1..]) && IsRing(m, [xs[0]])
  {
    var r := [list] + xs;
    assert l.next[r[0]] == First(xs, list);
    if xs != [] {
      assert r == [list] + [] + ([xs[0]] + xs[1..]);
      SpliceSplits(l, list, [], xs[0], xs[1..]);
      assert [xs[0]] + [] == [xs[0]];
    }
  }

  /**
   * pop_back splices the sentinel with its predecessor.  On a list of two or more nodes this
   * does not take the tail off: it cuts the sentinel off, so the list is left empty and the
   * returned tail still heads a ring of all the other nodes.
   */
  lemma PopBackEmptiesTheList(l: Links, list: RNode, xs: seq<RNode>)
    requires WellFormed(l) && IsList(l, list, xs)
    ensures list in l.next && list in l.prev && l.prev[list] in l.next
    ensures IsList(Splice(l, list, l.prev[list]), list, [])
    ensures xs == [] ==> l.prev[list] == list
    ensures xs != [] ==> var tail := xs[|xs| - 1];
                         l.prev[list] == tail && IsRing(Splice(l, list, tail), [tail] + xs[..|xs| - 1])
  {
    if xs == [] {
      assert [list] + xs == [] + [list];
      LastIsPrev(l, [], list);
      SpliceWithItself(l, list);
    } else {
      var x, z := xs[..|xs| - 1], xs[|xs| - 1];
      assert [list] + xs == ([list] + x) + [z] == [list] + x + ([z] + []);
      LastIsPrev(l, [list] + x, z);
      SpliceSplits(l, list, x, z, []);
    }
  }

  /** So it pops the tail, and only the tail, exactly when the list holds at most one node. */
  lemma PopBackPopsTheTailIff(l: Links, list: RNode, xs: seq<RNode>)
    requires WellFormed(l) && IsList(l, list, xs) && xs != []
    ensures list in l.next && list in l.prev && l.prev[list] in l.next
    ensures var m := Splice(l, list, l.prev[list]);
            IsList(m, list, xs[..|xs| - 1]) && IsRing(m, [l.prev[list]]) <==> |xs| == 1
  {
    PopBackEmptiesTheList(l, list, xs);
    var m, x := Splice(l, list, l.prev[list]), xs[..|xs| - 1];
    assert m.next[([list] + [])[0]] == list;
    if IsList(m, list, x) {
      assert m.next[([list] + x)[0]] == First(x, list);
      DistinctParts([list], x);
    }
  }

  /** The smallest list on which it goes wrong: of two nodes both are lost, and stay linked to each other. */
  lemma PopBackOfTwo(list: RNode, x: RNode, y: RNode)
    requires list != x && x != y && y != list
    ensures var l := Links(map[list := x, x := y, y := list], map[list := y, x := list, y := x]);
            var m := Splice(l, list, l.prev[list]);
            && WellFormed(l) && IsList(l, list, [x, y])
            && IsList(m, list, []) && IsRing(m, [y, x]) && !IsList(m, list, [x])
  {
    var l := Links(map[list := x, x := y, y := list], map[list := y, x := list, y := x]);
    TwoNodeList(l, list, x, y);
    PopBackEmptiesTheList(l, list, [x, y]);
    assert [x, y][..1] == [x] && [y] + [x] == [y, x] && [list] + [x] == [list, x];
    hide WellFormed;
    PopBackPopsTheTailIff(l, list, [x, y]);
    var m := Splice(l, list, y);
    if IsList(m, list, [x]) {
      RingTail(m, list, []);
      RingTail(m, list, [x]);
    }
  }

  lemma TwoNodeList(l: Links, list: RNode, x: RNode, y: RNode)
    requires list != x && x != y && y != list
    requires l == Links(map[list := x, x := y, y := list], map[list := y, x := list, y := x])
    ensures WellFormed(l) && IsList(l, list, [x, y])
  {
    var r := [list] + [x, y];
    assert r[0] == list && r[1] == x && r[2] == y;
    assert forall i | 0 <= i < 3 :: r[i] in l.next;
    assert l.next[r[0]] == r[1] && l.next[r[1]] == r[2] && l.next[r[2]] == r[0];
  }

  // --------------------------------------------------- reversal and selection

  ghost function Rev(xs: seq<RNode>): seq<RNode> {
    if xs == [] then [] else Rev(xs[1..]) + [xs[0]]
  }

  ghost function NodeSet(r: seq<RNode>): set<RNode> {
    set n | n in r
  }

  /** The pointers of the nodes in `f` exchanged, the others as they were. */
  ghost function Flip(l: Links, f: set<RNode>): Links
    requires f <= l.next.Keys && f <= l.prev.Keys
  {
    Links(map n | n in l.next :: if n in f then l.prev[n] else l.next[n],
          map n | n in l.prev :: if n in f then l.next[n] else l.prev[n])
  }

  lemma {:induction false} RevIsPermutation(xs: seq<RNode>)
    ensures |Rev(xs)| == |xs| && (forall n :: n in Rev(xs) <==> n in xs)
    ensures Distinct(xs) ==> Distinct(Rev(xs))
  {
    if xs != [] {
      RevIsPermutation(xs[1..]);
      assert xs == [xs[0]] + xs[1..];
      if Distinct(xs) {
        DistinctParts([xs[0]], xs[1..]);
        DistinctConcat(Rev(xs[1..]), [xs[0]]);
      }
    }
  }

  /** A walk followed through exchanged pointers runs backwards. */
  lemma {:induction false} WalkBackwards(l: Links, t: Links, x: seq<RNode>, end: RNode, before: RNode)
    requires WellFormed(l) && Walk(l, x, end)
    requires forall n | n in x :: n in l.prev && n in t.next && t.next[n] == l.prev[n]
    requires x != [] ==> l.prev[x[0]] == before
    ensures Walk(t, Rev(x), before)
    ensures x != [] ==> First(Rev(x), before) == x[|x| - 1]
  {
    if x != [] {
      assert x == [x[0]] + x[1..];
      WalkConcat(l, [x[0]], x[1..], end);
      assert l.next[[x[0]][0]] == First(x[1..], end);
      WalkBackwards(l, t, x[1..], end, x[0]);
      WalkConcat(t, Rev(x[1..]), [x[0]], before);
    }
  }

  lemma EndsOfList(l: Links, a: RNode, xs: seq<RNode>)
    requires WellFormed(l) && IsList(l, a, xs)
    ensures a in l.prev && a in l.next && l.prev[a] == if xs == [] then a else xs[|xs| - 1]
    ensures xs != [] ==> l.next[a] == xs[0] && xs[0] in l.prev && l.prev[xs[0]] == a
  {
    var r := [a] + xs;
    RingTail(l, a, xs);
    if xs == [] {
      assert r == [] + [a];
      LastIsPrev(l, [], a);
    } else {
      assert r == r[..|xs|] + [xs[|xs| - 1]] && r[0] == a;
      LastIsPrev(l, r[..|xs|], xs[|xs| - 1]);
      assert l.next[a] == xs[0];
    }
  }

  lemma FlipReverses(l: Links, a: RNode, xs: seq<RNode>)
    requires WellFormed(l) && IsList(l, a, xs)
    requires NodeSet([a] + xs) <= l.prev.Keys
    ensures NodeSet([a] + xs) <= l.next.Keys
    ensures IsList(Flip(l, NodeSet([a] + xs)), a, Rev(xs))
  {
    var r := [a] + xs;
    assert forall i | 0 <= i < |r| :: r[i] in l.next;
    RingTail(l, a, xs);
    EndsOfList(l, a, xs);
    hide IsRing, IsList;
    var t := Flip(l, NodeSet(r));
    RevIsPermutation(xs);
    assert a in r && forall n | n in xs :: n in r;
    WalkBackwards(l, t, xs, a, a);
    WalkCons(t, a, Rev(xs), a);
    DistinctConcat([a], Rev(xs));
  }

  /** The elements on which `pred` says `want`, in order. */
  ghost function Select(xs: seq<RNode>, pred: RNode -> bool, want: bool): seq<RNode> {
    if xs == [] then []
    else Select(xs[..|xs| - 1], pred, want) + if pred(xs[|xs| - 1]) == want then [xs[|xs| - 1]] else []
  }

  /** Selecting by a predicate and by its negation splits the nodes, losing and duplicating none. */
  lemma {:induction false} SelectConserves(xs: seq<RNode>, pred: RNode -> bool)
    ensures multiset(Select(xs, pred, true)) + multiset(Select(xs, pred, false)) == multiset(xs)
  {
    if xs != [] {
      var front, z := xs[..|xs| - 1], xs[|xs| - 1];
      SelectConserves(front, pred);
      assert xs == front + [z];
      assert multiset(xs) == multiset(front) + multiset{z};
      assert multiset(Select(xs, pred, pred(z))) == multiset(Select(front, pred, pred(z))) + multiset{z};
      assert Select(xs, pred, !pred(z)) == Select(front, pred, !pred(z));
    }
  }

  // ------------------------------------------------- the operations in place

  // `S` is the set of nodes in memory and `h` their pointers before the call.

  /** rl_splice. */
  method RlSplice(a: RNode, b: RNode, ghost S: set<RNode>, ghost h: Links) returns (r: RNode)
    requires a in S && b in S && Shows(S, h) && WellFormed(h)
    modifies a, b, a.next, b.next
    ensures r == b
    ensures Shows(S, Splice(h, a, b)) && WellFormed(Splice(h, a, b))
  {
    hide WellFormed;
    SuccessorsLinkBack(S, h, a, b);
    SpliceKeepsLinks(h, a, b);
    SwapLinks(a, b);
    assert forall n | n in S :: n.next == if n == a then h.next[b] else if n == b then h.next[a] else h.next[n];
    assert forall n | n in S :: n.prev == if n == h.next[b] then a else if n == h.next[a] then b else h.prev[n];
    r := b;
  }

  lemma SuccessorsLinkBack(S: set<RNode>, h: Links, a: RNode, b: RNode)
    requires a in S && b in S && Shows(S, h) && WellFormed(h)
    ensures h.next[a] == a.next && h.next[b] == b.next
    ensures a.next in S && b.next in S && a.next.prev == a && b.next.prev == b
    ensures h.next[a] in h.prev && h.next[b] in h.prev && h.prev[h.next[a]] == a && h.prev[h.next[b]] == b
  {
    assert h.prev[h.next[a]] == a && h.prev[h.next[b]] == b;
  }

  /** The two rlnode_swap calls, field by field. */
  method SwapLinks(a: RNode, b: RNode)
    requires a.next.prev == a && b.next.prev == b
    modifies a, b, a.next, b.next
    ensures a.next == old(b.next) && b.next == old(a.next)
    ensures old(a.next).prev == b && old(b.next).prev == a
    ensures forall n: RNode {:trigger n.next} | n in old({a.next, b.next}) - {a, b} :: n.next == old(n.next)
    ensures forall n: RNode {:trigger n.prev} | n in {a, b} - old({a.next, b.next}) :: n.prev == old(n.prev)
  {
    var an, bn := a.next, b.next;
    var temp := an.prev;
    an.prev := bn.prev;
    bn.prev := temp;
    temp := a.next;
    a.next := b.next;
    b.next := temp;
  }

  /** Where the derived operations start from: memory `S` shows `h`, holding the list and the ring. */
  ghost predicate Ready(S: set<RNode>, h: Links, list: RNode, xs: seq<RNode>, node: RNode, ys: seq<RNode>)
    reads S
  {
    && Shows(S, h) && WellFormed(h) && list in S && node in S
    && IsList(h, list, xs) && IsRing(h, [node] + ys) && node !in [list] + xs
  }

  /** rlist_remove. */
  method RlistRemove(a: RNode, ghost S: set<RNode>, ghost h: Links, ghost pre: seq<RNode>, ghost post: seq<RNode>)
    returns (r: RNode, ghost m: Links)
    requires a in S && Shows(S, h) && WellFormed(h) && IsRing(h, pre + ([a] + post))
    modifies S
    ensures a in h.prev && h.prev[a] in h.next && m == Splice(h, a, h.prev[a])
    ensures r == a && Shows(S, m) && WellFormed(m)
    ensures IsRing(m, [a]) && (pre + post != [] ==> IsRing(m, pre + post)) && a !in pre + post
  {
    RemoveRefines(h, pre, a, post);
    m := Splice(h, a, a.prev);
    var _ := RlSplice(a, a.prev, S, h);
    r := a;
  }

  /** is_rlist_empty. */
  method IsRlistEmpty(list: RNode, ghost S: set<RNode>, ghost h: Links, ghost xs: seq<RNode>) returns (empty: bool)
    requires list in S && Shows(S, h) && IsList(h, list, xs)
    ensures empty <==> xs == []
  {
    RingTail(h, list, xs);
    empty := list == list.next;
  }

  /** rlist_push_front. */
  method RlistPushFront(list: RNode, node: RNode,
                        ghost S: set<RNode>, ghost h: Links, ghost xs: seq<RNode>, ghost ys: seq<RNode>)
    returns (ghost m: Links)
    requires Ready(S, h, list, xs, node, ys)
    modifies S
    ensures m == Splice(h, list, node) && Shows(S, m) && WellFormed(m)
    ensures IsList(m, list, ys + [node] + xs)
  {
    PushFrontRefines(h, list, xs, node, ys);
    m := Splice(h, list, node);
    var _ := RlSplice(list, node, S, h);
  }

  /** rlist_push_back. */
  method RlistPushBack(list: RNode, node: RNode,
                       ghost S: set<RNode>, ghost h: Links, ghost xs: seq<RNode>, ghost ys: seq<RNode>)
    returns (ghost m: Links)
    requires Ready(S, h, list, xs, node, ys)
    modifies S
    ensures h.prev[list] in [list] + xs && m == Splice(h, h.prev[list], node) && Shows(S, m) && WellFormed(m)
    ensures IsList(m, list, xs + (ys + [node]))
  {
    PushBackRefines(h, list, xs, node, ys);
    PrevOfFirst(h, [list] + xs);
    m := Splice(h, list.prev, node);
    var _ := RlSplice(list.prev, node, S, h);
  }

  /** rlist_pop_front. */
  method RlistPopFront(list: RNode, ghost S: set<RNode>, ghost h: Links, ghost xs: seq<RNode>)
    returns (r: RNode, ghost m: Links)
    requires list in S && Shows(S, h) && WellFormed(h) && IsList(h, list, xs)
    modifies S
    ensures r in S && m == Splice(h, list, r) && Shows(S, m) && WellFormed(m)
    ensures xs == [] ==> r == list && m == h
    ensures xs != [] ==> r == xs[0] && IsList(m, list, xs[1..]) && IsRing(m, [r])
  {
    PopFrontRefines(h, list, xs);
    m := Splice(h, list, list.next);
    r := RlSplice(list, list.next, S, h);
  }

  /** rlist_pop_back: see PopBackEmptiesTheList. */
  method RlistPopBack(list: RNode, ghost S: set<RNode>, ghost h: Links, ghost xs: seq<RNode>)
    returns (r: RNode, ghost m: Links)
    requires list in S && Shows(S, h) && WellFormed(h) && IsList(h, list, xs)
    modifies S
    ensures r in S && m == Splice(h, list, r) && Shows(S, m) && WellFormed(m)
    ensures IsList(m, list, [])
    ensures xs == [] ==> r == list
    ensures xs != [] ==> r == xs[|xs| - 1] && IsRing(m, [r] + xs[..|xs| - 1])
  {
    PopBackEmptiesTheList(h, list, xs);
    m := Splice(h, list, list.prev);
    r := RlSplice(list, list.prev, S, h);
  }

  /** Where the emptied sentinel sits in the joined ring, before it is removed. */
  lemma SourceLast(ldest: RNode, pre: seq<RNode>, lsrc: RNode, post: seq<RNode>, all: seq<RNode>)
    requires all == pre + [lsrc] + post
    ensures [ldest] + all == [ldest] + pre + ([lsrc] + post)
    ensures [ldest] + pre + post == [ldest] + (pre + post) != [] && [lsrc] + [] == [lsrc]
    ensures post == [] ==> pre + post == pre
  {
  }

  /** A splice at two nodes of two rings changes no pointer outside those rings. */
  lemma PushedSameOutside(l: Links, r: seq<RNode>, a: RNode, s: seq<RNode>, b: RNode, f: set<RNode>)
    requires WellFormed(l) && IsRing(l, r) && IsRing(l, s) && a in r && b in s && NodeSet(r) <= f && NodeSet(s) <= f
    ensures a in l.next && b in l.next && SameOutside(l, Splice(l, a, b), f)
  {
    hide IsRing, WellFormed, SameOutside;
    RingNeighbours(l, r, a);
    RingNeighbours(l, s, b);
    assert a in NodeSet(r) && l.next[a] in NodeSet(r) && b in NodeSet(s) && l.next[b] in NodeSet(s);
    SpliceSameOutside(l, a, b, f);
  }

  lemma RemovedSameOutside(l: Links, r: seq<RNode>, a: RNode, f: set<RNode>)
    requires WellFormed(l) && IsRing(l, r) && a in r && NodeSet(r) <= f
    ensures a in l.prev && a in l.next && l.prev[a] in l.next && SameOutside(l, Splice(l, a, l.prev[a]), f)
  {
    hide IsRing, WellFormed, SameOutside;
    RingNeighbours(l, r, a);
    PushedSameOutside(l, r, a, r, l.prev[a], f);
  }

  /** rlist_append: the nodes of `lsrc` go to the back of `ldest`, and `lsrc` is left empty. */
  method RlistAppend(ldest: RNode, lsrc: RNode,
                     ghost S: set<RNode>, ghost h: Links, ghost xs: seq<RNode>, ghost ys: seq<RNode>)
    returns (ghost m: Links)
    requires Ready(S, h, ldest, xs, lsrc, ys)
    modifies S
    ensures Shows(S, m) && WellFormed(m) && IsList(m, ldest, xs + ys) && IsList(m, lsrc, [])
    ensures SameOutside(h, m, NodeSet([ldest] + xs) + NodeSet([lsrc] + ys))
  {
    hide IsRing, WellFormed, Shows, SameOutside;
    ghost var f := NodeSet([ldest] + xs) + NodeSet([lsrc] + ys);
    PrevOfFirst(h, [ldest] + xs);
    PushedSameOutside(h, [ldest] + xs, h.prev[ldest], [lsrc] + ys, lsrc, f);
    m := RlistPushBack(ldest, lsrc, S, h, xs, ys);
    SourceLast(ldest, xs + ys, lsrc, [], xs + (ys + [lsrc]));
    assert [ldest] + (xs + ys) + ([lsrc] + []) == [ldest] + (xs + (ys + [lsrc]));
    RemovedSameOutside(m, [ldest] + (xs + (ys + [lsrc])), lsrc, f);
    var _, m' := RlistRemove(lsrc, S, m, [ldest] + (xs + ys), []);
    SameOutsideTrans(h, m, m', f);
    m := m';
  }

  /** rlist_prepend: the nodes of `lsrc` go to the front of `ldest`, and `lsrc` is left empty. */
  method RlistPrepend(ldest: RNode, lsrc: RNode,
                      ghost S: set<RNode>, ghost h: Links, ghost xs: seq<RNode>, ghost ys: seq<RNode>)
    returns (ghost m: Links)
    requires Ready(S, h, ldest, xs, lsrc, ys)
    modifies S
    ensures Shows(S, m) && WellFormed(m) && IsList(m, ldest, ys + xs) && IsList(m, lsrc, [])
    ensures SameOutside(h, m, NodeSet([ldest] + xs) + NodeSet([lsrc] + ys))
  {
    hide IsRing, WellFormed, Shows, SameOutside;
    ghost var f := NodeSet([ldest] + xs) + NodeSet([lsrc] + ys);
    assert ldest in [ldest] + xs;
    PushedSameOutside(h, [ldest] + xs, ldest, [lsrc] + ys, lsrc, f);
    m := RlistPushFront(ldest, lsrc, S, h, xs, ys);
    SourceLast(ldest, ys, lsrc, xs, ys + [lsrc] + xs);
    assert [ldest] + ys + ([lsrc] + xs) == [ldest] + (ys + [lsrc] + xs);
    RemovedSameOutside(m, [ldest] + (ys + [lsrc] + xs), lsrc, f);
    var _, m' := RlistRemove(lsrc, S, m, [ldest] + ys, xs);
    SameOutsideTrans(h, m, m', f);
    m := m';
  }

  /** rlist_reverse, walking the ring through the pointers it has just exchanged. */
  method RlistReverse(l: RNode, ghost S: set<RNode>, ghost h: Links, ghost xs: seq<RNode>)
    requires l in S && Shows(S, h) && WellFormed(h) && IsList(h, l, xs)
    requires NodeSet([l] + xs) <= h.next.Keys && NodeSet([l] + xs) <= h.prev.Keys
    modifies S
    ensures Shows(S, Flip(h, NodeSet([l] + xs)))
    ensures IsList(Flip(h, NodeSet([l] + xs)), l, Rev(xs))
  {
    ghost var r := [l] + xs;
    ghost var n, k := |r|, 0;
    FlipReverses(h, l, xs);
    var p := l;
    var done := false;
    while !done
      invariant 0 <= k <= n && (done <==> k == n)
      invariant p == r[if k == 0 || k == n then 0 else n - k]
      invariant ShowsFlipped(S, h, Walked(r, k))
      decreases n - k
    {
      ghost var j := if k == 0 then 0 else n - k;
      assert r[j] in NodeSet(r);
      assert p !in Walked(r, k);
      PredecessorAt(h, r, j);
      SwapFields(p, S, h, Walked(r, k));
      WalkedNext(r, k);
      k := k + 1;
      p := p.next;
      done := p == l;
    }
    WalkedAll(r);
  }

  /** The nodes rlist_reverse has visited after `k` steps: the first, then backwards from the last. */
  ghost function Walked(r: seq<RNode>, k: nat): set<RNode>
    requires k <= |r|
  {
    if k == 0 then {} else {r[0]} + NodeSet(r[|r| - k + 1..])
  }

  lemma WalkedNext(r: seq<RNode>, k: nat)
    requires k < |r|
    ensures Walked(r, k + 1) == Walked(r, k) + {r[if k == 0 then 0 else |r| - k]}
  {
    if k > 0 {
      assert r[|r| - k..] == [r[|r| - k]] + r[|r| - k + 1..];
    }
  }

  lemma WalkedAll(r: seq<RNode>)
    requires r != []
    ensures Walked(r, |r|) == NodeSet(r)
  {
    assert r == [r[0]] + r[1..];
  }

  /** Memory shows `h` with the pointers of the nodes in `f` exchanged. */
  ghost predicate ShowsFlipped(S: set<RNode>, h: Links, f: set<RNode>)
    reads S
  {
    && (forall n | n in S :: n in h.next && n in h.prev)
    && (forall n {:trigger n.next} | n in S :: n.next == if n in f then h.prev[n] else h.next[n])
    && (forall n {:trigger n.prev} | n in S :: n.prev == if n in f then h.next[n] else h.prev[n])
  }

  /** One step of the reversal: rlnode_swap on the two fields of a node not yet visited. */
  method SwapFields(p: RNode, ghost S: set<RNode>, ghost h: Links, ghost f: set<RNode>)
    requires ShowsFlipped(S, h, f) && p in S && p !in f
    modifies p
    ensures ShowsFlipped(S, h, f + {p})
  {
    var temp := p.prev;
    p.prev := p.next;
    p.next := temp;
  }

  lemma PredecessorAt(l: Links, r: seq<RNode>, i: nat)
    requires WellFormed(l) && IsRing(l, r) && i < |r|
    ensures r[i] in l.prev && l.prev[r[i]] == r[if i == 0 then |r| - 1 else i - 1]
  {
    var z := r[if i == 0 then |r| - 1 else i - 1];
    assert l.next[z] == r[i];
    assert l.prev[l.next[z]] == z;
  }

  /** rlist_select: a stable partition of Lsrc; the matches are appended to Ldest in order. */
  method RlistSelect(lsrc: RNode, ldest: RNode, pred: RNode -> bool,
                     ghost S: set<RNode>, ghost h: Links, ghost xs: seq<RNode>, ghost ys: seq<RNode>)
    returns (ghost m: Links)
    requires lsrc in S && ldest in S && Shows(S, h) && WellFormed(h)
    requires IsList(h, lsrc, xs) && IsList(h, ldest, ys) && lsrc !in [ldest] + ys
    modifies S
    ensures Shows(S, m) && WellFormed(m)
    ensures IsList(m, lsrc, Select(xs, pred, false)) && IsList(m, ldest, ys + Select(xs, pred, true))
    ensures SameOutside(h, m, NodeSet([lsrc] + xs) + NodeSet([ldest] + ys))
  {
    hide IsRing, WellFormed, Shows, SameOutside;
    ghost var f := NodeSet([lsrc] + xs) + NodeSet([ldest] + ys);
    m := h;
    assert SameOutside(h, m, f) by { SameOutsideRefl(h, f); }
    ghost var past, rest, kept, ds: seq<RNode> := [], xs, [], ys;
    assert [] + xs == xs && ys + [] == ys && ([lsrc] + kept)[0] == lsrc;
    var i := lsrc;
    NextAfterKept(S, m, lsrc, [], rest);
    while i.next != lsrc
      invariant xs == past + rest && kept == Select(past, pred, false) && ds == ys + Select(past, pred, true)
      invariant i.next != lsrc ==> rest != []
      invariant Selecting(S, m, lsrc, ldest, i, kept, rest, ds)
      invariant SameOutside(h, m, f) && NodeSet([lsrc] + (kept + rest)) <= f && NodeSet([ldest] + ds) <= f
      decreases |rest|
    {
      ghost var before := m;
      i, m, kept, ds := SelectStep(lsrc, ldest, i, pred, S, m, past, kept, rest, ys, ds, f);
      SameOutsideTrans(h, before, m, f);
      past, rest := past + [rest[0]], rest[1..];
    }
    NextAfterKept(S, m, lsrc, kept, rest);
    assert kept + rest == kept && past == xs;
  }

  /** The loop of rlist_select: `kept` was passed over, `rest` is ahead of `i`, `ds` is in Ldest. */
  ghost predicate Selecting(S: set<RNode>, m: Links, lsrc: RNode, ldest: RNode, i: RNode,
                            kept: seq<RNode>, rest: seq<RNode>, ds: seq<RNode>)
    reads S
  {
    && Shows(S, m) && WellFormed(m) && lsrc !in [ldest] + ds
    && IsList(m, lsrc, kept + rest) && IsList(m, ldest, ds)
    && i in S && i == ([lsrc] + kept)[|kept|]
  }

  /** The body of that loop. */
  method SelectStep(lsrc: RNode, ldest: RNode, i: RNode, pred: RNode -> bool, ghost S: set<RNode>, ghost h: Links,
                    ghost past: seq<RNode>, ghost kept: seq<RNode>, ghost rest: seq<RNode>,
                    ghost ys: seq<RNode>, ghost ds: seq<RNode>, ghost f: set<RNode>)
    returns (j: RNode, ghost m: Links, ghost kept': seq<RNode>, ghost ds': seq<RNode>)
    requires Selecting(S, h, lsrc, ldest, i, kept, rest, ds) && lsrc in S && ldest in S && rest != []
    requires kept == Select(past, pred, false) && ds == ys + Select(past, pred, true)
    requires NodeSet([lsrc] + (kept + rest)) <= f && NodeSet([ldest] + ds) <= f
    modifies S
    ensures SameOutside(h, m, f) && NodeSet([lsrc] + (kept' + rest[1..])) <= f && NodeSet([ldest] + ds') <= f
    ensures Selecting(S, m, lsrc, ldest, j, kept', rest[1..], ds')
    ensures kept' == Select(past + [rest[0]], pred, false) && ds' == ys + Select(past + [rest[0]], pred, true)
    ensures j.next != lsrc ==> rest[1..] != []
  {
    hide IsRing, WellFormed, Shows, SameOutside;
    ghost var n, later := rest[0], rest[1..];
    assert n in NodeSet([lsrc] + (kept + rest));
    assert rest == [n] + later && kept + ([n] + later) == kept + rest;
    NextAfterKept(S, h, lsrc, kept, rest);
    SelectNext(past, n, pred);
    if pred(i.next) {
      m := MoveToBack(lsrc, ldest, i.next, S, h, kept, later, ds, f);
      j, kept', ds' := i, kept, ds + [n];
    } else {
      assert kept + rest == kept + [n] + later;
      j, m, kept', ds' := i.next, h, kept + [n], ds;
      SameOutsideRefl(h, f);
    }
    NextAfterKept(S, m, lsrc, kept', later);
  }

  lemma SelectNext(past: seq<RNode>, n: RNode, pred: RNode -> bool)
    ensures Select(past + [n], pred, pred(n)) == Select(past, pred, pred(n)) + [n]
    ensures Select(past + [n], pred, !pred(n)) == Select(past, pred, !pred(n))
  {
    assert (past + [n])[..|past|] == past;
  }

  /** What follows the last kept node. */
  lemma NextAfterKept(S: set<RNode>, m: Links, list: RNode, kept: seq<RNode>, rest: seq<RNode>)
    requires Shows(S, m) && IsList(m, list, kept + rest)
    ensures var i := ([list] + kept)[|kept|];
            i in S && i.next in S && i.next == First(rest, list) && (rest != [] ==> rest[0] != list)
  {
    var r := [list] + (kept + rest);
    assert r == [list] + kept + rest;
    WalkConcat(m, [list] + kept, rest, list);
    DistinctParts([list] + kept, rest);
    assert ([list] + kept)[0] == list;
    assert m.next[([list] + kept)[|kept|]] == First(rest, list);
    assert r[0] in m.next && (rest != [] ==> r[|kept| + 1] in m.next);
  }

  /** rlist_remove from the source, then rlist_push_back to the destination. */
  method MoveToBack(lsrc: RNode, ldest: RNode, node: RNode,
                    ghost S: set<RNode>, ghost h: Links, ghost kept: seq<RNode>, ghost rest: seq<RNode>, ghost ds: seq<RNode>,
                    ghost f: set<RNode>)
    returns (ghost m: Links)
    requires NodeSet([lsrc] + (kept + ([node] + rest))) <= f && NodeSet([ldest] + ds) <= f
    requires lsrc in S && ldest in S && node in S && Shows(S, h) && WellFormed(h)
    requires IsList(h, lsrc, kept + ([node] + rest)) && IsList(h, ldest, ds) && lsrc !in [ldest] + ds
    modifies S
    ensures Shows(S, m) && WellFormed(m)
    ensures IsList(m, lsrc, kept + rest) && IsList(m, ldest, ds + [node]) && lsrc !in [ldest] + (ds + [node])
    ensures SameOutside(h, m, f)
  {
    hide SameOutside;
    MoveOut(h, lsrc, ldest, node, kept, rest, ds);
    assert node in [lsrc] + (kept + ([node] + rest));
    RemovedSameOutside(h, [lsrc] + (kept + ([node] + rest)), node, f);
    var p, m1 := RlistRemove(node, S, h, [lsrc] + kept, rest);
    MoveIn(m1, lsrc, ldest, node, kept + rest, ds);
    assert node in NodeSet([lsrc] + (kept + ([node] + rest))) && [node] + [] == [node];
    PrevOfFirst(m1, [ldest] + ds);
    PushedSameOutside(m1, [ldest] + ds, m1.prev[ldest], [node], node, f);
    m := RlistPushBack(ldest, p, S, m1, ds, []);
    SameOutsideTrans(h, m1, m, f);
  }

  lemma ElsewhereDisjoint(l: Links, list: RNode, xs: seq<RNode>, other: RNode, ys: seq<RNode>)
    requires IsList(l, list, xs) && IsList(l, other, ys) && list !in [other] + ys
    ensures Disjoint([list] + xs, [other] + ys)
  {
    assert ([list] + xs)[0] == list;
    RingsSameOrDisjoint(l, [other] + ys, [list] + xs);
  }

  /** Removing a node from one list leaves the other list alone. */
  lemma MoveOut(h: Links, lsrc: RNode, ldest: RNode, node: RNode, kept: seq<RNode>, rest: seq<RNode>, ds: seq<RNode>)
    requires WellFormed(h)
    requires IsList(h, lsrc, kept + ([node] + rest)) && IsList(h, ldest, ds) && lsrc !in [ldest] + ds
    ensures IsRing(h, [lsrc] + kept + ([node] + rest)) && node !in [ldest] + ds
    ensures node in h.next && node in h.prev && h.prev[node] in h.next
    ensures var m := Splice(h, node, h.prev[node]);
            IsList(m, ldest, ds) && IsList(m, lsrc, kept + rest) && node !in [lsrc] + (kept + rest) && IsRing(m, [node] + [])
  {
    var r := [lsrc] + kept + ([node] + rest);
    assert [lsrc] + (kept + ([node] + rest)) == r;
    assert [lsrc] + (kept + rest) == [lsrc] + kept + rest && [node] + [] == [node];
    RemoveRefines(h, [lsrc] + kept, node, rest);
    ElsewhereDisjoint(h, lsrc, kept + ([node] + rest), ldest, ds);
    assert r[|kept| + 1] == node && r[|kept|] in r && node in r;
    PredecessorAt(h, r, |kept| + 1);
    SpliceKeepsOtherRings(h, node, h.prev[node], [ldest] + ds);
  }

  /** Appending a lone node to one list leaves the other list alone. */
  lemma MoveIn(m: Links, lsrc: RNode, ldest: RNode, node: RNode, xs: seq<RNode>, ds: seq<RNode>)
    requires WellFormed(m) && IsList(m, lsrc, xs) && IsList(m, ldest, ds) && lsrc !in [ldest] + ds
    requires node in m.next && node !in [lsrc] + xs && node !in [ldest] + ds
    ensures ldest in m.prev && m.prev[ldest] in m.next
    ensures IsList(Splice(m, m.prev[ldest], node), lsrc, xs)
    ensures ds + ([] + [node]) == ds + [node] && lsrc !in [ldest] + (ds + [node])
  {
    PrevOfFirst(m, [ldest] + ds);
    var z := ([ldest] + ds)[|ds|];
    assert m.prev[([ldest] + ds)[0]] == z && z in [ldest] + ds;
    ElsewhereDisjoint(m, lsrc, xs, ldest, ds);
    assert ([lsrc] + xs)[0] == lsrc;
    assert z !in [lsrc] + xs;
    assert z in m.next;
    SpliceKeepsOtherRings(m, z, node, [lsrc] + xs);
  }
}
