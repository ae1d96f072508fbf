// The condition variable of kernel_cc.c on the heap: `waitset` points into a ring of waiters that has
// no sentinel. Each method is what one thread does while it has waitset_lock, loops included; in
// between, and during a signaller's loop, timers and other kernel routines may wake waiters.

module CondVarRings {
  import opened Lists
  import opened Rings

  /** A waiter is known by its node. */
  class CondVar {
    var waitset: RNode?
    var stopped: set<RNode>      // waiters whose threads are STOPPED
    var removed: set<RNode>      // waiters whose `removed` is set
    var signalled: set<RNode>    // waiters whose `signalled` is set
    ghost const nodes: set<RNode>
    ghost var links: Links
    ghost var ring: seq<RNode>   // the waiters, from waitset on

    ghost predicate Shape()
      reads this, nodes
    {
      && Shows(nodes, links) && RingShape(links, nodes, ring)
      && (if ring == [] then waitset == null else waitset == ring[0])
      && (forall n | n in ring :: n !in removed)
      && signalled <= removed && stopped <= nodes
    }

    /** Between critical sections every waiter that sleeps is where a signaller will find it. */
    ghost predicate Valid()
      reads this, nodes
    {
      Shape() && forall n | n in stopped :: n in ring
    }

    /** COND_INIT, and waiters that cv_wait has initialised. */
    constructor Init(nodes: set<RNode>)
      requires forall n | n in nodes :: n.next == n && n.prev == n
      ensures Valid() && ring == [] && this.nodes == nodes && stopped == {} && removed == {} && signalled == {}
    {
      waitset := null;
      stopped, removed, signalled := {}, {}, {};
      this.nodes := nodes;
      links := Links(map n | n in nodes :: n, map n | n in nodes :: n);
      ring := [];
    }

    /** rlist_push_back(&wset->node, &waiter.node), or cv->waitset = &waiter. */
    method Push(w: RNode)
      requires Shape() && w in nodes && w !in ring && w !in removed
      modifies this`waitset, this`links, this`ring, nodes
      ensures Shape() && ring == old(ring) + [w]
    {
      hide IsRing, WellFormed, Shows, RingShape;
      ghost var m := links;
      if waitset != null {
        PushShape(links, nodes, ring, w);
        m := RlistPushBack(waitset, w, nodes, links, ring[1..], []);
      } else {
        FirstShape(links, nodes, w);
        waitset := w;
        assert ring + [w] == [w];
      }
      Settle(m, ring + [w]);
    }

    /** remove_from_ring: only w leaves the ring, wherever it stands. */
    method RemoveFromRing(w: RNode)
      requires Shape() && w in ring
      modifies this`waitset, this`links, this`ring, nodes
      ensures Shape() && ring == Without(old(ring), w) && w !in ring
    {
      hide IsRing, WellFormed, Shows, RingShape;
      ghost var pre, post := RemoveShape(links, nodes, ring, w);
      NextOnRing(nodes, links, pre, w, post);
      if waitset == w {
        // make cv->waitset safe
        var nextw := w.next;
        waitset := if nextw == w then null else nextw;
      }
      var _, m := RlistRemove(w, nodes, links, pre, post);
      Settle(m, pre + post);
    }

    /** The new ring is noted. */
    ghost method Settle(m: Links, q: seq<RNode>)
      requires Shows(nodes, m) && RingShape(m, nodes, q) && waitset == (if q == [] then null else q[0])
      requires signalled <= removed && stopped <= nodes && forall n | n in q :: n !in removed
      modifies this`links, this`ring
      ensures Shape() && ring == q
    {
      hide RingShape;
      links, ring := m, q;
    }

    /** Timers and other kernel routines wake any of the sleepers; they do not touch the ring. */
    method OtherWakeups()
      modifies this`stopped
      ensures stopped <= old(stopped)
    {
      assert {} <= stopped;
      var woken: set<RNode> :| woken <= stopped;
      stopped := stopped - woken;
    }

    /** wakeup(waiter->thread), after what may have happened to the thread before it. */
    method Wakeup(w: RNode) returns (ret: bool)
      modifies this`stopped
      ensures stopped <= old(stopped) && w !in stopped && (ret ==> w in old(stopped))
    {
      OtherWakeups();
      ret := w in stopped;
      stopped := stopped - {w};
    }

    /** cv_wait from its first Mutex_Lock(&cv->waitset_lock) to the sleep that releases it. */
    method WaitBegin(w: RNode)
      requires Valid() && w in nodes && w !in ring && w !in removed
      modifies this, nodes
      ensures Valid() && ring == old(ring) + [w] && stopped == old(stopped) + {w}
      ensures removed == old(removed) && signalled == old(signalled)
    {
      hide RingShape, Shows;
      Push(w);
      stopped := stopped + {w};
    }

    /** cv_wait from its second Mutex_Lock(&cv->waitset_lock) to the unlock; what it will return. */
    method WaitEnd(w: RNode) returns (ret: bool)
      requires Valid() && w in nodes && w !in stopped && (w in ring || w in removed)
      modifies this, nodes
      ensures Valid() && w !in ring && ring == Without(old(ring), w)
      ensures ret <==> w in old(signalled)
      ensures stopped == old(stopped) && removed == old(removed) && signalled == old(signalled)
    {
      hide RingShape, Shows;
      if w !in removed {
        assert w !in signalled;
        ghost var q := ring;
        RingDistinct();
        WithoutRemoves(q, w);
        RemoveFromRing(w);
      } else {
        WithoutAbsent(ring, w);
      }
      ret := w in signalled;
    }

    lemma RingDistinct()
      requires Shape()
      ensures Distinct(ring)
    {
    }

    /**
     * cv_signal. It wakes at most one waiter, and signals no other: the first of the ring that still
     * sleeps when it gets there. Those in front of it were awake; those behind it stay.
     */
    method CvSignal() returns (woke: RNode?)
      requires Valid()
      modifies this, nodes
      ensures Valid() && stopped <= old(stopped)
      ensures woke == null ==> ring == [] && signalled == old(signalled)
      ensures woke != null ==>
                var n := |old(ring)| - |ring|;
                && 0 < n <= |old(ring)| && old(ring)[n - 1] == woke
                && woke in old(stopped) && signalled == old(signalled) + {woke}
      ensures |ring| <= |old(ring)| && ring == old(ring)[|old(ring)| - |ring|..] && Gone(old(ring), |old(ring)| - |ring|, stopped, removed)
      ensures old(ring) != [] ==> |ring| < |old(ring)|
      ensures removed == old(removed) + Members(old(ring)[..|old(ring)| - |ring|])
    {
      hide RingShape, Shows, Alone;
      ghost var q, n := ring, 0;
      assert q[0..] == q && Members(q[..0]) == {};
      while waitset != null
        invariant Valid() && stopped <= old(stopped) && signalled == old(signalled)
        invariant 0 <= n <= |q| && ring == q[n..] && Gone(q, n, stopped, removed) && removed == old(removed) + Members(q[..n])
        decreases |ring|
      {
        RingDistinct();
        var waiter := waitset;
        assert waiter == q[n] == ring[0] && Without(ring, waiter) == ring[1..] == q[n + 1..];
        assert q[..n + 1] == q[..n] + [q[n]];
        RemoveFromRing(waiter);
        removed := removed + {waiter};
        var ret := Wakeup(waiter);
        n := n + 1;
        if ret {
          signalled := signalled + {waiter};
          return waiter;
        }
      }
      return null;
    }

    /** Cond_Broadcast, under the lock: nobody is left on the ring, and all who were are awake. */
    method CvBroadcast()
      requires Valid()
      modifies this, nodes
      ensures Valid() && ring == [] && Gone(old(ring), |old(ring)|, stopped, removed) && stopped <= old(stopped)
      ensures forall w | w in signalled && w !in old(signalled) :: w in old(ring) && w in old(stopped)
    {
      hide RingShape, Shows, Alone, Gone;
      ghost var q, n := ring, 0;
      assert q[0..] == q && Gone(q, 0, stopped, removed) by { NobodyGone(q, stopped, removed); }
      while waitset != null
        invariant Valid() && stopped <= old(stopped)
        invariant 0 <= n <= |q| && ring == q[n..] && Gone(q, n, stopped, removed)
        invariant forall w | w in signalled && w !in old(signalled) :: w in q && w in old(stopped)
        decreases |ring|
      {
        ghost var st, rm, r := stopped, removed, ring;
        var _ := CvSignal();
        GoneOn(q, n, |r| - |ring|, st, rm, stopped, removed);
        n := n + (|r| - |ring|);
      }
    }
  }

  /** The first n of q are awake and removed. */
  ghost predicate Gone(q: seq<RNode>, n: nat, stopped: set<RNode>, removed: set<RNode>)
    requires n <= |q|
  {
    forall i | 0 <= i < n :: q[i] !in stopped && q[i] in removed
  }

  lemma NobodyGone(q: seq<RNode>, stopped: set<RNode>, removed: set<RNode>)
    ensures Gone(q, 0, stopped, removed)
  {
  }

  lemma GoneOn(q: seq<RNode>, n: nat, m: nat, stopped: set<RNode>, removed: set<RNode>, stopped': set<RNode>, removed': set<RNode>)
    requires n <= |q| && m <= |q| - n && Gone(q, n, stopped, removed) && Gone(q[n..], m, stopped', removed')
    requires stopped' <= stopped && removed <= removed'
    ensures Gone(q, n + m, stopped', removed') && q[n..][m..] == q[n + m..]
  {
    forall i | 0 <= i < n + m ensures q[i] !in stopped' && q[i] in removed' {
      if i >= n { assert q[i] == q[n..][i - n]; }
    }
  }

  ghost function Members(q: seq<RNode>): set<RNode> {
    set n | n in q
  }

  /** A sentinel-free ring of some nodes, the other nodes being singletons. */
  ghost predicate RingShape(l: Links, nodes: set<RNode>, ring: seq<RNode>) {
    && WellFormed(l)
    && (forall n | n in ring :: n in nodes)
    && (ring != [] ==> IsRing(l, ring)) && Distinct(ring)
    && (forall n | n in nodes && n !in ring :: Alone(l, n))
  }

  lemma FirstShape(l: Links, nodes: set<RNode>, w: RNode)
    requires RingShape(l, nodes, []) && w in nodes
    ensures RingShape(l, nodes, [w])
  {
    LoneRing(l, w);
  }

  lemma PushShape(l: Links, nodes: set<RNode>, q: seq<RNode>, w: RNode)
    requires RingShape(l, nodes, q) && q != [] && w in nodes && w !in q
    ensures IsList(l, q[0], q[1..]) && IsRing(l, [w] + []) && w !in [q[0]] + q[1..] && WellFormed(l) && q[0] in nodes
    ensures q[0] in l.prev && l.prev[q[0]] in l.next && w in l.next
    ensures RingShape(Splice(l, l.prev[q[0]], w), nodes, q + [w])
  {
    hide IsRing, WellFormed, SameOutside;
    assert [q[0]] + q[1..] == q && [w] + [] == [w];
    LoneRing(l, w);
    PrevOfFirst(l, q);
    PushBackRefines(l, q[0], q[1..], w, []);
    assert [q[0]] + (q[1..] + ([] + [w])) == q + [w];
    PushedSameOutside(l, q, l.prev[q[0]], [w], w, NodeSet(q + [w]));
    SpliceKeepsLinks(l, l.prev[q[0]], w);
    OthersAlone(l, Splice(l, l.prev[q[0]], w), nodes, q + [w]);
    DistinctConcat(q, [w]);
    assert forall n | n in q + [w] :: n in q || n == w;
  }

  lemma RemoveShape(l: Links, nodes: set<RNode>, q: seq<RNode>, w: RNode) returns (pre: seq<RNode>, post: seq<RNode>)
    requires RingShape(l, nodes, q) && w in q
    ensures q == pre + ([w] + post) && Without(q, w) == pre + post && w !in pre + post && w in nodes
    ensures (forall n | n in pre + post :: n in q) && (pre == [] <==> w == q[0]) && (pre != [] ==> pre[0] == q[0])
    ensures post != [] ==> post[0] != w
    ensures WellFormed(l) && IsRing(l, q) && w in l.prev && w in l.next && l.prev[w] in l.next
    ensures RingShape(Splice(l, w, l.prev[w]), nodes, pre + post)
  {
    hide IsRing, WellFormed, SameOutside, Without, Splice, Distinct;
    pre, post := CutAt(q, w);
    assert post != [] ==> post[0] in pre + post;
    RemoveRefines(l, pre, w, post);
    RemovedSameOutside(l, q, w, NodeSet(q));
    var m := Splice(l, w, l.prev[w]);
    SpliceKeepsLinks(l, w, l.prev[w]);
    LoneRing(m, w);
    OthersAlone(l, m, nodes, q);
    forall n | n in nodes && n !in pre + post ensures Alone(m, n) {
      if n in q { assert n == w; }
    }
  }

  /** A node that is a ring of its own. */
  ghost predicate Alone(l: Links, n: RNode) {
    n in l.next && l.next[n] == n
  }

  lemma LoneRing(l: Links, n: RNode)
    ensures Alone(l, n) <==> IsRing(l, [n])
  {
    var r := [n];
    assert r[0] in l.next <==> n in l.next;
    if IsRing(l, r) { assert l.next[r[0]] == n; }
  }

  /** Nodes that are rings of their own stay so when no pointer outside q changes. */
  lemma OthersAlone(l: Links, m: Links, nodes: set<RNode>, q: seq<RNode>)
    requires SameOutside(l, m, NodeSet(q))
    ensures forall n | n in nodes && n !in q && Alone(l, n) :: Alone(m, n)
  {
  }

  /** What follows w on the ring that begins with pre. */
  lemma NextOnRing(S: set<RNode>, l: Links, pre: seq<RNode>, w: RNode, post: seq<RNode>)
    requires Shows(S, l) && IsRing(l, pre + ([w] + post)) && w in S
    ensures pre == [] ==> w.next == if post == [] then w else post[0]
  {
    if pre == [] {
      assert pre + ([w] + post) == [w] + post;
      RingTail(l, w, post);
    }
  }
}
