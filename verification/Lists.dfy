// What the models share: optional values, and lists in which nothing occurs twice.

module Lists {

  datatype Option<+T> = None | Some(value: T)

  ghost predicate Distinct<T>(q: seq<T>) {
    forall i, j | 0 <= i < j < |q| :: q[i] != q[j]
  }

  /** The list after t has been taken out of it. */
  function Without<T(==)>(q: seq<T>, t: T): seq<T> {
    if q == [] then [] else if q[0] == t then q[1..] else [q[0]] + Without(q[1..], t)
  }

  lemma {:induction false} WithoutRemoves<T>(q: seq<T>, t: T)
    requires Distinct(q)
    ensures Distinct(Without(q, t)) && t !in Without(q, t)
    ensures forall u | u != t :: u in Without(q, t) <==> u in q
  {
    if q != [] {
      TailWithoutHead(q);
      if q[0] != t {
        WithoutRemoves(q[1..], t);
        var r := Without(q[1..], t);
        assert Without(q, t) == [q[0]] + r;
        assert q[0] !in r;
      }
    }
  }

  lemma TailWithoutHead<T>(q: seq<T>)
    requires Distinct(q) && q != []
    ensures Distinct(q[1..]) && q[0] !in q[1..]
    ensures forall x :: x in q <==> x == q[0] || x in q[1..]
  {
    assert q == [q[0]] + q[1..];
  }

  lemma DistinctConcat<T>(a: seq<T>, b: seq<T>)
    requires Distinct(a) && Distinct(b) && forall x | x in a :: x !in b
    ensures Distinct(a + b)
  {
    forall i, j | 0 <= i < j < |a + b| ensures (a + b)[i] != (a + b)[j] {
      if i < |a| <= j { assert a[i] in a && b[j - |a|] in b; }
    }
  }

  /** A list with t in it is what stands before t, t, and what stands behind. */
  lemma {:induction false} WithoutSplit<T>(pre: seq<T>, t: T, post: seq<T>)
    requires t !in pre
    ensures Without(pre + ([t] + post), t) == pre + post
  {
    var q := pre + ([t] + post);
    if pre == [] {
      assert q == [t] + post && pre + post == post;
    } else {
      assert q[1..] == pre[1..] + ([t] + post) && q[0] == pre[0];
      WithoutSplit(pre[1..], t, post);
      assert [pre[0]] + (pre[1..] + post) == pre + post;
    }
  }

  lemma {:induction false} WithoutAbsent<T>(q: seq<T>, t: T)
    requires t !in q
    ensures Without(q, t) == q
  {
    if q != [] {
      WithoutAbsent(q[1..], t);
      assert [q[0]] + q[1..] == q;
    }
  }

  /** t stands somewhere before u. */
  ghost predicate Before<T>(q: seq<T>, t: T, u: T) {
    exists i, j :: 0 <= i < j < |q| && q[i] == t && q[j] == u
  }

  lemma BeforeAt<T>(q: seq<T>, i: nat, j: nat)
    requires i < j < |q|
    ensures Before(q, q[i], q[j])
  {
  }

  lemma {:induction false} BeforeWithout<T>(q: seq<T>, x: T, t: T, u: T)
    requires Before(q, t, u) && Distinct(q) && t != x && u != x
    ensures Before(Without(q, x), t, u)
  {
    var i, j :| 0 <= i < j < |q| && q[i] == t && q[j] == u;
    if q[0] == x {
      BeforeAt(q[1..], i - 1, j - 1);
    } else {
      TailWithoutHead(q);
      var r := Without(q[1..], x);
      WithoutRemoves(q[1..], x);
      if i == 0 {
        assert q[1..][j - 1] == u;
        BehindHead(q[0], r, u);
      } else {
        BeforeAt(q[1..], i - 1, j - 1);
        BeforeWithout(q[1..], x, t, u);
        BeforeCons(q[0], r, t, u);
      }
    }
  }

  lemma BehindHead<T>(h: T, r: seq<T>, u: T)
    requires u in r
    ensures Before([h] + r, h, u)
  {
    var k :| 0 <= k < |r| && r[k] == u;
    BeforeAt([h] + r, 0, k + 1);
  }

  lemma BeforeCons<T>(h: T, r: seq<T>, t: T, u: T)
    requires Before(r, t, u)
    ensures Before([h] + r, t, u)
  {
    var i, j :| 0 <= i < j < |r| && r[i] == t && r[j] == u;
    BeforeAt([h] + r, i + 1, j + 1);
  }

  lemma BeforeInsert<T>(q: seq<T>, p: nat, x: T, t: T, u: T)
    requires Before(q, t, u) && p <= |q|
    ensures Before(q[..p] + [x] + q[p..], t, u)
  {
    var i, j :| 0 <= i < j < |q| && q[i] == t && q[j] == u;
    BeforeAt(q[..p] + [x] + q[p..], if i < p then i else i + 1, if j < p then j else j + 1);
  }

  lemma BeforeSuffix<T>(q: seq<T>, m: nat, t: T, u: T)
    requires Before(q, t, u) && Distinct(q) && m <= |q| && t in q[m..]
    ensures Before(q[m..], t, u)
  {
    var i, j :| 0 <= i < j < |q| && q[i] == t && q[j] == u;
    var k :| 0 <= k < |q[m..]| && q[m..][k] == t;
    assert q[m + k] == t && m + k == i;
    BeforeAt(q[m..], i - m, j - m);
  }

  /** A list cut where t stands. */
  lemma CutAt<T>(q: seq<T>, t: T) returns (pre: seq<T>, post: seq<T>)
    requires Distinct(q) && t in q
    ensures q == pre + ([t] + post) && Without(q, t) == pre + post && t !in pre + post && Distinct(pre + post)
    ensures forall n | n in q :: n == t || n in pre + post
    ensures forall n | n in pre + post :: n in q
    ensures (pre == [] <==> t == q[0]) && (pre != [] ==> pre[0] == q[0])
  {
    var i :| 0 <= i < |q| && q[i] == t;
    pre, post := q[..i], q[i + 1..];
    assert q == pre + ([t] + post);
    assert t !in pre;
    WithoutSplit(pre, t, post);
    WithoutRemoves(q, t);
  }
}
