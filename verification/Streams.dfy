// Streams: file control blocks, their reference counts and the processes' file tables
// (kernel_streams.c). A step is what a system call does between two points where it may let go
// of the kernel lock; only the device calls inside Read and Write let go of it.

module Streams {
  import opened Lists

  type Pid = nat
  type Fcb = nat

  /** History of one stream: the FCB it was opened on, and how often the device's Close was called on it. */
  datatype Stream = Stream(fcb: Fcb, closes: nat)

  /**
   * `fidt[p]` is the FIDT of process p and `refcount` the table FT. `held` are the references that
   * system calls in progress hold outside any FIDT. `stream` and `streams` are history: the last
   * stream connected to each FCB since it was acquired, and all streams ever opened.
   */
  datatype State = State(
    fidt: seq<seq<Option<Fcb>>>,
    refcount: seq<int>,
    free: seq<Fcb>,
    held: multiset<Fcb>,
    stream: seq<Option<nat>>,
    streams: seq<Stream>)

  // -------------------------------------------------------------- operations

  predicate Shape(s: State) {
    && |s.stream| == |s.refcount|
    && (forall p, i | 0 <= p < |s.fidt| && 0 <= i < |s.fidt[p]| && s.fidt[p][i].Some? :: s.fidt[p][i].value < |s.refcount|)
    && (forall k | 0 <= k < |s.free| :: s.free[k] < |s.refcount|)
    && (forall f | f in s.held :: f < |s.refcount|)
    && (forall f | 0 <= f < |s.stream| && s.stream[f].Some? :: s.stream[f].value < |s.streams|)
  }

  function GetFcb(s: State, p: Pid, fd: int): Option<Fcb>
    requires p < |s.fidt|
  {
    if fd < 0 || fd >= |s.fidt[p]| then None else s.fidt[p][fd]
  }

  function SetSlot(s: State, p: Pid, fd: nat, v: Option<Fcb>): State
    requires p < |s.fidt| && fd < |s.fidt[p]|
  {
    s.(fidt := s.fidt[p := s.fidt[p][fd := v]])
  }

  function IncRef(s: State, f: Fcb): State
    requires f < |s.refcount|
  {
    s.(refcount := s.refcount[f := s.refcount[f] + 1], held := s.held + multiset{f})
  }

  /** Does this FCB_decref call Close? */
  predicate Closes(s: State, f: Fcb)
    requires f < |s.refcount|
  {
    s.refcount[f] == 1
  }

  function Closed(streams: seq<Stream>, n: Option<nat>): seq<Stream>
    requires n.Some? ==> n.value < |streams|
  {
    if n.None? then streams else streams[n.value := streams[n.value].(closes := streams[n.value].closes + 1)]
  }

  function DecRef(s: State, f: Fcb): State
    requires f < |s.refcount| && f < |s.stream| && (s.stream[f].Some? ==> s.stream[f].value < |s.streams|)
  {
    var s1 := s.(refcount := s.refcount[f := s.refcount[f] - 1], held := s.held - multiset{f});
    if Closes(s, f) then s1.(free := s.free + [f], streams := Closed(s.streams, s.stream[f])) else s1
  }

  /** A reference leaves a slot for the hands of the running system call. */
  function TakeSlot(s: State, p: Pid, fd: nat): State
    requires p < |s.fidt| && fd < |s.fidt[p]| && s.fidt[p][fd].Some?
  {
    SetSlot(s, p, fd, None).(held := s.held + multiset{s.fidt[p][fd].value})
  }

  /** And back into an empty slot. */
  function PutSlot(s: State, p: Pid, fd: nat, f: Fcb): State
    requires p < |s.fidt| && fd < |s.fidt[p]|
  {
    SetSlot(s, p, fd, Some(f)).(held := s.held - multiset{f})
  }

  // ----------------------------------------------------------- the invariant

  /** An FCB off the free list has as many references as its count says, and one at least; a free one has none. */
  predicate RefOk(s: State, f: Fcb)
    requires f < |s.refcount|
  {
    if f in s.free then Slots(s.fidt, f) == 0 && s.held[f] == 0
    else s.refcount[f] == Slots(s.fidt, f) + s.held[f] && s.refcount[f] >= 1
  }

  function Slots(fidt: seq<seq<Option<Fcb>>>, f: Fcb): nat {
    if fidt == [] then 0 else multiset(fidt[0])[Some(f)] + Slots(fidt[1..], f)
  }

  /** Stream n is open on exactly the FCB it was opened on, or it has been closed once. */
  predicate StreamOk(s: State, n: nat)
    requires |s.stream| == |s.refcount| && n < |s.streams|
  {
    var h := s.streams[n];
    && h.fcb < |s.refcount|
    && h.closes == if h.fcb !in s.free && s.stream[h.fcb] == Some(n) then 0 else 1
  }

  predicate FcbStreamOk(s: State, f: Fcb)
    requires Shape(s) && f < |s.refcount|
  {
    f !in s.free && s.stream[f].Some? ==> s.streams[s.stream[f].value].fcb == f
  }

  /** The invariant also between FCB_reserve and the moment the streams are connected. */
  ghost predicate Inv(s: State) {
    && Shape(s)
    && Distinct(s.free)
    && (forall f | 0 <= f < |s.refcount| :: RefOk(s, f))
    && (forall n | 0 <= n < |s.streams| :: StreamOk(s, n))
    && (forall f | 0 <= f < |s.refcount| :: FcbStreamOk(s, f))
  }

  /** Nothing in use is still waiting for its stream. */
  ghost predicate Connected(s: State) {
    |s.stream| == |s.refcount| && forall f | 0 <= f < |s.refcount| && f !in s.free :: s.stream[f].Some?
  }

  // ---------------------------------------------------------------- counting

  lemma {:induction false} SlotsUpdate(fidt: seq<seq<Option<Fcb>>>, p: Pid, row: seq<Option<Fcb>>, f: Fcb)
    requires p < |fidt|
    ensures Slots(fidt[p := row], f) == Slots(fidt, f) - multiset(fidt[p])[Some(f)] + multiset(row)[Some(f)]
  {
    if p > 0 {
      assert fidt[p := row][1..] == fidt[1..][p - 1 := row];
      SlotsUpdate(fidt[1..], p - 1, row, f);
    } else {
      assert fidt[p := row][1..] == fidt[1..];
    }
  }

  lemma SetSlotCounts(s: State, p: Pid, fd: nat, v: Option<Fcb>, f: Fcb)
    requires p < |s.fidt| && fd < |s.fidt[p]|
    ensures Slots(SetSlot(s, p, fd, v).fidt, f)
         == Slots(s.fidt, f) - (if s.fidt[p][fd] == Some(f) then 1 else 0) + (if v == Some(f) then 1 else 0)
  {
    SlotsUpdate(s.fidt, p, s.fidt[p][fd := v], f);
  }

  lemma SlotIsCounted(s: State, p: Pid, fd: nat)
    requires p < |s.fidt| && fd < |s.fidt[p]| && s.fidt[p][fd].Some?
    ensures Slots(s.fidt, s.fidt[p][fd].value) >= 1
  {
    SetSlotCounts(s, p, fd, None, s.fidt[p][fd].value);
  }

  /** No slot points at a free FCB, and no system call in progress holds one. */
  lemma NoSlotIsFree(s: State, p: Pid, fd: nat)
    requires Inv(s) && p < |s.fidt| && fd < |s.fidt[p]| && s.fidt[p][fd].Some?
    ensures s.fidt[p][fd].value !in s.free
  {
    SlotIsCounted(s, p, fd);
    assert RefOk(s, s.fidt[p][fd].value);
  }

  // ------------------------------------------------- the four basic transfers

  lemma TakeSlotKeeps(s: State, p: Pid, fd: nat)
    requires Inv(s) && p < |s.fidt| && fd < |s.fidt[p]| && s.fidt[p][fd].Some?
    ensures Inv(TakeSlot(s, p, fd))
  {
    var r := TakeSlot(s, p, fd);
    forall f | 0 <= f < |s.refcount| ensures RefOk(r, f) && FcbStreamOk(r, f) {
      assert RefOk(s, f) && FcbStreamOk(s, f);
      SetSlotCounts(s, p, fd, None, f);
    }
    forall n | 0 <= n < |s.streams| ensures StreamOk(r, n) { assert StreamOk(s, n); }
  }

  lemma PutSlotKeeps(s: State, p: Pid, fd: nat, f: Fcb)
    requires Inv(s) && p < |s.fidt| && fd < |s.fidt[p]| && s.fidt[p][fd].None? && f in s.held
    ensures Inv(PutSlot(s, p, fd, f))
  {
    var r := PutSlot(s, p, fd, f);
    forall g | 0 <= g < |s.refcount| ensures RefOk(r, g) && FcbStreamOk(r, g) {
      assert RefOk(s, g) && FcbStreamOk(s, g);
      SetSlotCounts(s, p, fd, Some(f), g);
    }
    forall n | 0 <= n < |s.streams| ensures StreamOk(r, n) { assert StreamOk(s, n); }
  }

  lemma IncRefKeeps(s: State, f: Fcb)
    requires Inv(s) && f < |s.refcount| && f !in s.free
    ensures Inv(IncRef(s, f))
  {
    var r := IncRef(s, f);
    forall g | 0 <= g < |s.refcount| ensures RefOk(r, g) && FcbStreamOk(r, g) {
      assert RefOk(s, g) && FcbStreamOk(s, g);
    }
    forall n | 0 <= n < |s.streams| ensures StreamOk(r, n) { assert StreamOk(s, n); }
  }

  lemma DecRefKeeps(s: State, f: Fcb)
    requires Inv(s) && f in s.held
    ensures Inv(DecRef(s, f))
    ensures Connected(s) ==> Connected(DecRef(s, f))
    ensures DecRef(s, f).fidt == s.fidt
  {
    hide RefOk, StreamOk, FcbStreamOk;
    var r := DecRef(s, f);
    assert RefOk(s, f) && FcbStreamOk(s, f);
    HeldIsBusy(s, f);
    forall g | 0 <= g < |s.refcount| ensures RefOk(r, g) && FcbStreamOk(r, g) {
      assert RefOk(s, g) && FcbStreamOk(s, g);
      DecRefOther(s, f, g);
    }
    forall n | 0 <= n < |s.streams| ensures StreamOk(r, n) {
      assert StreamOk(s, n);
      DecRefStream(s, f, n);
    }
    if Closes(s, f) { DistinctConcat(s.free, [f]); }
  }

  lemma HeldIsBusy(s: State, f: Fcb)
    requires f < |s.refcount| && f in s.held && RefOk(s, f)
    ensures f !in s.free
  {
  }

  lemma DecRefOther(s: State, f: Fcb, g: Fcb)
    requires Shape(s) && f in s.held && f !in s.free && RefOk(s, f) && g < |s.refcount| && RefOk(s, g) && FcbStreamOk(s, g)
    ensures Shape(DecRef(s, f)) && RefOk(DecRef(s, f), g) && FcbStreamOk(DecRef(s, f), g)
  {
  }

  lemma DecRefStream(s: State, f: Fcb, n: nat)
    requires Shape(s) && f in s.held && f !in s.free && FcbStreamOk(s, f) && n < |s.streams| && StreamOk(s, n)
    ensures n < |DecRef(s, f).streams| && StreamOk(DecRef(s, f), n)
  {
  }

  // ------------------------------------------------------- reserving, opening

  /** The num smallest unused fids from f on, or all of them when there are fewer. */
  function FreeFids(row: seq<Option<Fcb>>, f: nat, num: nat): (r: seq<nat>)
    requires f <= |row|
    ensures |r| <= num
    ensures forall k | 0 <= k < |r| :: f <= r[k] < |row| && row[r[k]].None?
    ensures forall j, k | 0 <= j < k < |r| :: r[j] < r[k]
    decreases |row| - f
  {
    if num == 0 || f == |row| then []
    else if row[f].None? then [f] + FreeFids(row, f + 1, num - 1)
    else FreeFids(row, f + 1, num)
  }

  /** An unused fid is passed over only when there are enough smaller ones. */
  lemma {:induction false} FreeFidsAreTheSmallest(row: seq<Option<Fcb>>, f: nat, num: nat, g: nat)
    requires f <= g < |row| && row[g].None?
    ensures var r := FreeFids(row, f, num);
            g in r || (|r| == num && forall k | 0 <= k < num :: r[k] < g)
    decreases |row| - f
  {
    if num > 0 && g != f {
      FreeFidsAreTheSmallest(row, f + 1, if row[f].None? then num - 1 else num, g);
    }
  }

  /** acquire_FCB, the slot and FCB_incref, for one of the FCBs reserved. */
  function Bind(s: State, p: Pid, fd: nat): State
    requires p < |s.fidt| && fd < |s.fidt[p]| && s.free != [] && s.free[0] < |s.refcount| == |s.stream|
  {
    var f := s.free[0];
    SetSlot(s, p, fd, Some(f)).(free := s.free[1..], refcount := s.refcount[f := 1], stream := s.stream[f := None])
  }

  predicate CanBind(s: State, p: Pid, fids: seq<nat>) {
    && Shape(s) && p < |s.fidt| && |fids| <= |s.free|
    && (forall k | 0 <= k < |fids| :: fids[k] < |s.fidt[p]| && s.fidt[p][fids[k]].None?)
    && (forall j, k | 0 <= j < k < |fids| :: fids[j] != fids[k])
  }

  function BindAll(s: State, p: Pid, fids: seq<nat>, n: nat): (r: State)
    requires CanBind(s, p, fids) && n <= |fids|
    ensures Shape(r) && r.free == s.free[n..] && |r.refcount| == |s.refcount|
    ensures |r.fidt| == |s.fidt| && forall q | 0 <= q < |s.fidt| :: |r.fidt[q]| == |s.fidt[q]|
  {
    if n == 0 then s else Bind(BindAll(s, p, fids, n - 1), p, fids[n - 1])
  }

  function Reversed(q: seq<Fcb>): (r: seq<Fcb>)
    ensures |r| == |q| && forall k | 0 <= k < |q| :: r[k] == q[|q| - 1 - k]
  {
    seq(|q|, k requires 0 <= k < |q| => q[|q| - 1 - k])
  }

  datatype Reservation = Reserved(s: State, fids: seq<nat>, fcbs: seq<Fcb>) | Failed(s: State)

  /** FCB_reserve. With too few free FCBs it takes them all, one by one, and gives them back in reverse. */
  function Reserve(s: State, p: Pid, num: nat): Reservation
    requires Shape(s) && p < |s.fidt|
  {
    var fids := FreeFids(s.fidt[p], 0, num);
    if |fids| < num then Failed(s)
    else if |s.free| < num then
      Failed(s.(free := Reversed(s.free), refcount := seq(|s.refcount|, f requires 0 <= f < |s.refcount| => if f in s.free then 0 else s.refcount[f])))
    else Reserved(BindAll(s, p, fids, num), fids, s.free[..num])
  }

  /** FCB_unreserve, after n of the loop's rounds. */
  function UnreserveUpTo(s: State, p: Pid, fids: seq<nat>, fcbs: seq<Fcb>, n: nat): (r: State)
    requires p < |s.fidt| && n <= |fids| == |fcbs| && forall k | 0 <= k < |fids| :: fids[k] < |s.fidt[p]|
    ensures |r.fidt| == |s.fidt| && |r.fidt[p]| == |s.fidt[p]|
  {
    if n == 0 then s else
      var s1 := UnreserveUpTo(s, p, fids, fcbs, n - 1);
      SetSlot(s1, p, fids[n - 1], None).(free := s1.free + [fcbs[n - 1]])
  }

  /** A device's stream object goes into a reserved FCB: a new stream. */
  function Connect(s: State, f: Fcb): State
    requires f < |s.stream|
  {
    s.(stream := s.stream[f := Some(|s.streams|)], streams := s.streams + [Stream(f, 0)])
  }

  lemma BindKeeps(s: State, p: Pid, fd: nat)
    requires Inv(s) && p < |s.fidt| && fd < |s.fidt[p]| && s.fidt[p][fd].None? && s.free != []
    ensures Inv(Bind(s, p, fd))
  {
    var r := Bind(s, p, fd);
    var f := s.free[0];
    assert RefOk(s, f);
    forall g | 0 <= g < |s.refcount| ensures g in r.free <==> g in s.free && g != f {
      if g in s.free && g != f {
        var k :| 0 <= k < |s.free| && s.free[k] == g;
        assert r.free[k - 1] == g;
      }
    }
    forall g | 0 <= g < |s.refcount| ensures RefOk(r, g) && FcbStreamOk(r, g) {
      assert RefOk(s, g) && FcbStreamOk(s, g);
      SetSlotCounts(s, p, fd, Some(f), g);
    }
    forall n | 0 <= n < |s.streams| ensures StreamOk(r, n) { assert StreamOk(s, n); }
  }

  lemma {:induction false} BindAllKeeps(s: State, p: Pid, fids: seq<nat>, n: nat)
    requires CanBind(s, p, fids) && n <= |fids| && Inv(s)
    ensures Inv(BindAll(s, p, fids, n))
  {
    hide Inv, Bind;
    if n > 0 {
      BindAllKeeps(s, p, fids, n - 1);
      BindAllDoes(s, p, fids, n - 1);
      BindKeeps(BindAll(s, p, fids, n - 1), p, fids[n - 1]);
    }
  }

  /** What n rounds of the last loop of FCB_reserve have done. */
  lemma {:induction false} BindAllDoes(s: State, p: Pid, fids: seq<nat>, n: nat)
    requires CanBind(s, p, fids) && n <= |fids|
    ensures var r := BindAll(s, p, fids, n);
            && r.held == s.held && r.streams == s.streams
            && (forall k | 0 <= k < n :: r.fidt[p][fids[k]] == Some(s.free[k]))
            && (forall q | 0 <= q < |s.fidt| && q != p :: r.fidt[q] == s.fidt[q])
            && (forall i | 0 <= i < |s.fidt[p]| && i !in fids[..n] :: r.fidt[p][i] == s.fidt[p][i])
  {
    if n > 0 {
      BindAllDoes(s, p, fids, n - 1);
      BindDoes(BindAll(s, p, fids, n - 1), p, fids[n - 1]);
      hide Bind, Shape;
      assert fids[n - 1] !in fids[..n - 1];
      assert fids[..n] == fids[..n - 1] + [fids[n - 1]];
    }
  }

  lemma BindDoes(s: State, p: Pid, fd: nat)
    requires p < |s.fidt| && fd < |s.fidt[p]| && s.free != [] && s.free[0] < |s.refcount| == |s.stream|
    ensures var r := Bind(s, p, fd);
            && r.held == s.held && r.streams == s.streams && |r.fidt| == |s.fidt|
            && (forall q | 0 <= q < |s.fidt| && q != p :: r.fidt[q] == s.fidt[q])
            && r.fidt[p] == s.fidt[p][fd := Some(s.free[0])]
  {
  }

  lemma {:induction false} BindAllCounts(s: State, p: Pid, fids: seq<nat>, n: nat)
    requires CanBind(s, p, fids) && n <= |fids| && Distinct(s.free)
    ensures var r := BindAll(s, p, fids, n);
            && (forall k | 0 <= k < n :: r.refcount[s.free[k]] == 1 && r.stream[s.free[k]].None?)
            && (forall g | 0 <= g < |s.refcount| && g !in s.free[..n] :: r.refcount[g] == s.refcount[g] && r.stream[g] == s.stream[g])
  {
    if n > 0 {
      BindAllCounts(s, p, fids, n - 1);
      assert s.free[..n] == s.free[..n - 1] + [s.free[n - 1]];
    }
  }

  lemma {:induction false} FreeFidsCount(row: seq<Option<Fcb>>, f: nat, num: nat)
    requires f <= |row|
    ensures |FreeFids(row, f, num)| == if multiset(row[f..])[None] < num then multiset(row[f..])[None] else num
    decreases |row| - f
  {
    if f < |row| {
      assert row[f..] == [row[f]] + row[f + 1..];
      if num > 0 {
        FreeFidsCount(row, f + 1, if row[f].None? then num - 1 else num);
      }
    }
  }

  /** FCB_reserve succeeds exactly when the process has num unused fids and num FCBs are free. */
  lemma ReserveSucceedsIff(s: State, p: Pid, num: nat)
    requires Shape(s) && p < |s.fidt|
    ensures Reserve(s, p, num).Reserved? <==> num <= multiset(s.fidt[p])[None] && num <= |s.free|
  {
    FreeFidsCount(s.fidt[p], 0, num);
    assert s.fidt[p][0..] == s.fidt[p];
  }

  /** On success: the num smallest unused fids in increasing order, bound to distinct FCBs with one reference each. */
  lemma ReserveGives(s: State, p: Pid, num: nat)
    requires Inv(s) && p < |s.fidt| && Reserve(s, p, num).Reserved?
    ensures var Reserved(r, fids, fcbs) := Reserve(s, p, num);
            && Inv(r) && |fids| == |fcbs| == num
            && |r.fidt| == |s.fidt| && |r.fidt[p]| == |s.fidt[p]| && |r.refcount| == |s.refcount|
            && (forall j, k | 0 <= j < k < num :: fids[j] < fids[k] && fcbs[j] != fcbs[k])
            && (forall k | 0 <= k < num :: fids[k] < |s.fidt[p]| && s.fidt[p][fids[k]].None? && fcbs[k] in s.free && fcbs[k] !in r.free)
            && (forall k | 0 <= k < num :: r.fidt[p][fids[k]] == Some(fcbs[k]) && r.refcount[fcbs[k]] == 1 && r.stream[fcbs[k]].None?)
            && (forall g, k | 0 <= g < |s.fidt[p]| && s.fidt[p][g].None? && g !in fids && 0 <= k < num :: fids[k] < g)
            && (forall q | 0 <= q < |s.fidt| && q != p :: r.fidt[q] == s.fidt[q])
            && (forall i | 0 <= i < |s.fidt[p]| && i !in fids :: r.fidt[p][i] == s.fidt[p][i])
            && (forall g | 0 <= g < |s.refcount| && g !in fcbs :: r.refcount[g] == s.refcount[g] && r.stream[g] == s.stream[g])
            && s.free == fcbs + r.free && r.held == s.held && r.streams == s.streams
  {
    hide BindAll, Bind, FreeFids, RefOk, StreamOk, FcbStreamOk;
    var fids := FreeFids(s.fidt[p], 0, num);
    BindAllKeeps(s, p, fids, num);
    BindAllDoes(s, p, fids, num);
    BindAllCounts(s, p, fids, num);
    assert fids[..num] == fids;
    assert s.free == s.free[..num] + s.free[num..];
    forall g, k | 0 <= g < |s.fidt[p]| && s.fidt[p][g].None? && g !in fids && 0 <= k < num ensures fids[k] < g {
      FreeFidsAreTheSmallest(s.fidt[p], 0, num, g);
    }
  }

  /** On failure nothing changes but the order of the free list and the counts of FCBs on it. */
  lemma ReserveFailureKeeps(s: State, p: Pid, num: nat)
    requires Inv(s) && p < |s.fidt| && Reserve(s, p, num).Failed?
    ensures var r := Reserve(s, p, num).s;
            && Inv(r) && r.fidt == s.fidt && r.held == s.held && r.stream == s.stream && r.streams == s.streams
            && |r.free| == |s.free| && (forall f :: f in r.free <==> f in s.free)
            && |r.refcount| == |s.refcount| && forall f | 0 <= f < |s.refcount| && f !in s.free :: r.refcount[f] == s.refcount[f]
  {
    hide FreeFids;
    var r := Reserve(s, p, num).s;
    forall f ensures f in r.free <==> f in s.free {
      if f in s.free {
        var k :| 0 <= k < |s.free| && s.free[k] == f;
        assert s.free == r.free || r.free[|s.free| - 1 - k] == f;
      }
    }
    forall f | 0 <= f < |s.refcount| ensures RefOk(r, f) && FcbStreamOk(r, f) {
      assert RefOk(s, f) && FcbStreamOk(s, f);
    }
    forall n | 0 <= n < |s.streams| ensures StreamOk(r, n) { assert StreamOk(s, n); }
  }

  /**
   * A failed FCB_reserve leaves everything as it was if and only if the fids were too few, or there
   * was at most one free FCB and its count was not stale: otherwise it has taken free FCBs and given
   * them back in another order, or cleared a count.
   */
  lemma ReserveFailureChangesNothingIff(s: State, p: Pid, num: nat)
    requires Inv(s) && p < |s.fidt| && Reserve(s, p, num).Failed?
    ensures Reserve(s, p, num).s == s
       <==> multiset(s.fidt[p])[None] < num || s.free == [] || (|s.free| == 1 && s.refcount[s.free[0]] == 0)
  {
    hide RefOk, StreamOk, FcbStreamOk, FreeFids;
    FreeFidsCount(s.fidt[p], 0, num);
    assert s.fidt[p][0..] == s.fidt[p];
    var r := Reserve(s, p, num).s;
    if multiset(s.fidt[p])[None] >= num && s.free != [] {
      assert r.free == Reversed(s.free) && r.refcount[s.free[0]] == 0;
      if |s.free| == 1 {
        assert r.free == s.free;
        assert forall f | 0 <= f < |s.refcount| && f != s.free[0] :: f !in s.free && r.refcount[f] == s.refcount[f];
        assert s.refcount[s.free[0]] == 0 ==> r.refcount == s.refcount;
      } else {
        assert r.free[0] == s.free[|s.free| - 1] != s.free[0];
      }
    }
  }

  /** Three FCBs asked for where two are free: the free list is turned round. */
  lemma FailedReservationTurnsTheFreeList()
    ensures var s := Initial(1, 2, 3);
            && Inv(s) && s.free == [0, 1] && Reserve(s, 0, 3).Failed?
            && Reserve(s, 0, 3).s.free == [1, 0] && Reserve(s, 0, 3).s != s
  {
    var s := Initial(1, 2, 3);
    InitialInv(1, 2, 3);
    ReserveSucceedsIff(s, 0, 3);
    FreeFidsCount(s.fidt[0], 0, 3);
    assert s.fidt[0][0..] == s.fidt[0] == [None, None, None];
    assert s.free == [0, 1];
    assert Reversed([0, 1]) == [1, 0];
  }

  lemma {:induction false} UnreserveDoes(s: State, p: Pid, fids: seq<nat>, fcbs: seq<Fcb>, n: nat)
    requires p < |s.fidt| && n <= |fids| == |fcbs| && forall k | 0 <= k < |fids| :: fids[k] < |s.fidt[p]|
    ensures var r := UnreserveUpTo(s, p, fids, fcbs, n);
            && r == s.(fidt := r.fidt, free := s.free + fcbs[..n])
            && (forall q | 0 <= q < |s.fidt| && q != p :: r.fidt[q] == s.fidt[q])
            && (forall i | 0 <= i < |s.fidt[p]| :: r.fidt[p][i] == if i in fids[..n] then None else s.fidt[p][i])
  {
    if n > 0 {
      UnreserveDoes(s, p, fids, fcbs, n - 1);
      assert fids[..n] == fids[..n - 1] + [fids[n - 1]];
      assert fcbs[..n] == fcbs[..n - 1] + [fcbs[n - 1]];
    }
  }

  /** FCB_unreserve takes back all that FCB_reserve gave; the counts it leaves on the free list are stale. */
  lemma UnreserveUndoes(s: State, p: Pid, num: nat)
    requires Inv(s) && p < |s.fidt| && Reserve(s, p, num).Reserved?
    ensures var Reserved(r, fids, fcbs) := Reserve(s, p, num);
            && |fids| == |fcbs| == num && p < |r.fidt| && (forall k | 0 <= k < num :: fids[k] < |r.fidt[p]|)
            && var u := UnreserveUpTo(r, p, fids, fcbs, num);
            && Inv(u) && u.fidt == s.fidt && u.held == s.held && u.streams == s.streams
            && (forall f :: f in u.free <==> f in s.free) && |u.free| == |s.free|
            && |u.refcount| == |s.refcount| && |u.stream| == |s.stream|
            && (forall f | 0 <= f < |s.refcount| && f !in s.free :: u.refcount[f] == s.refcount[f] && u.stream[f] == s.stream[f])
            && (forall k | 0 <= k < num :: u.refcount[fcbs[k]] == 1)
  {
    hide Reserve, UnreserveUpTo, RefOk, StreamOk, FcbStreamOk;
    ReserveGives(s, p, num);
    var Reserved(r, fids, fcbs) := Reserve(s, p, num);
    UnreserveDoes(r, p, fids, fcbs, num);
    var u := UnreserveUpTo(r, p, fids, fcbs, num);
    assert fids[..num] == fids && fcbs[..num] == fcbs;
    assert u.free == s.free[num..] + s.free[..num] by {
      assert |fcbs| == num && s.free == fcbs + r.free;
    }
    assert u.fidt == s.fidt by {
      assert forall i | 0 <= i < |s.fidt[p]| :: u.fidt[p][i] == s.fidt[p][i];
      assert u.fidt[p] == s.fidt[p];
    }
    UnreserveInv(s, u);
  }

  lemma UnreserveInv(s: State, u: State)
    requires Inv(s) && u == s.(free := u.free, refcount := u.refcount, stream := u.stream)
    requires Distinct(u.free) && forall f :: f in u.free <==> f in s.free
    requires |u.refcount| == |s.refcount| && |u.stream| == |s.stream|
    requires forall f | 0 <= f < |s.refcount| && f !in s.free :: u.refcount[f] == s.refcount[f] && u.stream[f] == s.stream[f]
    requires forall f | 0 <= f < |s.refcount| :: u.stream[f] == s.stream[f] || u.stream[f].None?
    ensures Inv(u)
  {
    forall k | 0 <= k < |u.free| ensures u.free[k] < |u.refcount| { assert u.free[k] in s.free; }
    forall f | 0 <= f < |s.refcount| ensures RefOk(u, f) && FcbStreamOk(u, f) {
      assert RefOk(s, f) && FcbStreamOk(s, f);
    }
    forall n | 0 <= n < |s.streams| ensures StreamOk(u, n) { assert StreamOk(s, n); }
  }

  // ------------------------------------------------------------ system calls

  datatype Opened = Opened(s: State, fid: int)

  const NOFILE: int := -1

  /** open_stream; `deviceOk` is whether device_open accepts. */
  function OpenStream(s: State, p: Pid, deviceOk: bool): Opened
    requires Inv(s) && p < |s.fidt|
  {
    match Reserve(s, p, 1)
    case Failed(r) => Opened(r, NOFILE)
    case Reserved(r, fids, fcbs) =>
      ReserveGives(s, p, 1);
      if deviceOk then Opened(Connect(r, fcbs[0]), fids[0])
      else Opened(UnreserveUpTo(r, p, fids, fcbs, 1), NOFILE)
  }

  function CloseFd(s: State, p: Pid, fd: int): (r: State)
    requires Shape(s) && p < |s.fidt|
    ensures Shape(r) && r.fidt == if GetFcb(s, p, fd).None? then s.fidt else s.fidt[p := s.fidt[p][fd := None]]
  {
    if GetFcb(s, p, fd).None? then s else DecRef(TakeSlot(s, p, fd), s.fidt[p][fd].value)
  }

  /** sys_Dup2 answers 0, or -1 for an illegal fid or a closed oldfd. */
  predicate Dup2Legal(s: State, p: Pid, oldfd: int, newfd: int)
    requires p < |s.fidt|
  {
    0 <= oldfd < |s.fidt[p]| && 0 <= newfd < |s.fidt[p]| && s.fidt[p][oldfd].Some?
  }

  function Dup2(s: State, p: Pid, oldfd: int, newfd: int): State
    requires Inv(s) && p < |s.fidt|
  {
    if !Dup2Legal(s, p, oldfd, newfd) || s.fidt[p][oldfd] == s.fidt[p][newfd] then s
    else
      var src := s.fidt[p][oldfd].value;
      var s1 := CloseFd(s, p, newfd);
      Link(s1, src, p, newfd)
  }

  /** sys_Read and sys_Write up to the device's call, and after it. */
  function CallBegin(s: State, p: Pid, fd: int): State
    requires Inv(s) && p < |s.fidt|
  {
    if GetFcb(s, p, fd).None? then s else IncRef(s, s.fidt[p][fd].value)
  }

  predicate CanInherit(s: State, p: Pid, c: Pid) {
    p < |s.fidt| && c < |s.fidt| && p != c && |s.fidt[p]| == |s.fidt[c]| && forall i | 0 <= i < |s.fidt[c]| :: s.fidt[c][i].None?
  }

  /** One more reference to f, from an empty slot. */
  function Link(s: State, f: Fcb, p: Pid, fd: nat): (r: State)
    requires Shape(s) && p < |s.fidt| && fd < |s.fidt[p]| && f < |s.refcount|
    ensures Shape(r) && r == s.(fidt := s.fidt[p := s.fidt[p][fd := Some(f)]], refcount := r.refcount)
    ensures |r.refcount| == |s.refcount|
  {
    var r := PutSlot(IncRef(s, f), p, fd, f);
    assert s.held + multiset{f} - multiset{f} == s.held;
    r
  }

  /** n rounds of the loop in which sys_Exec copies the streams of p to its child c. */
  function InheritUpTo(s: State, p: Pid, c: Pid, n: nat): (r: State)
    requires Shape(s) && p < |s.fidt| && c < |s.fidt| && p != c && n <= |s.fidt[p]| == |s.fidt[c]|
    ensures Shape(r) && |r.fidt| == |s.fidt| && |r.fidt[c]| == |s.fidt[c]| && |r.refcount| == |s.refcount|
    ensures r == s.(fidt := s.fidt[c := r.fidt[c]], refcount := r.refcount)
    ensures forall i | n <= i < |s.fidt[c]| :: r.fidt[c][i] == s.fidt[c][i]
  {
    if n == 0 then s else
      hide Link;
      var s1 := InheritUpTo(s, p, c, n - 1);
      if s.fidt[p][n - 1].None? then s1 else Link(s1, s.fidt[p][n - 1].value, c, n - 1)
  }

  /** n rounds of the loop in which sys_Exit drops the streams of p. */
  function CloseUpTo(s: State, p: Pid, n: nat): (r: State)
    requires Shape(s) && p < |s.fidt| && n <= |s.fidt[p]|
    ensures Shape(r) && |r.fidt| == |s.fidt| && r.fidt == s.fidt[p := r.fidt[p]] && |r.fidt[p]| == |s.fidt[p]|
  {
    if n == 0 then s else
      hide CloseFd;
      CloseFd(CloseUpTo(s, p, n - 1), p, n - 1)
  }

  lemma {:induction false} CloseUpToKeeps(s: State, p: Pid, n: nat)
    requires Shape(s) && Inv(s) && p < |s.fidt| && n <= |s.fidt[p]|
    ensures var r := CloseUpTo(s, p, n);
            && Inv(r) && (Connected(s) ==> Connected(r))
            && forall i | 0 <= i < |s.fidt[p]| :: r.fidt[p][i] == if i < n then None else s.fidt[p][i]
  {
    hide Inv, Connected, CloseFd;
    if n > 0 {
      CloseUpToKeeps(s, p, n - 1);
      CloseFdKeeps(CloseUpTo(s, p, n - 1), p, n - 1);
    }
  }

  lemma CloseFdKeeps(s: State, p: Pid, fd: int)
    requires Inv(s) && p < |s.fidt|
    ensures Inv(CloseFd(s, p, fd)) && (Connected(s) ==> Connected(CloseFd(s, p, fd)))
  {
    hide Inv;
    if GetFcb(s, p, fd).Some? {
      TakeSlotKeeps(s, p, fd);
      assert Connected(s) ==> Connected(TakeSlot(s, p, fd));
      DecRefKeeps(TakeSlot(s, p, fd), s.fidt[p][fd].value);
    }
  }

  lemma ConnectKeeps(s: State, f: Fcb)
    requires Inv(s) && f < |s.stream| && f !in s.free && s.stream[f].None?
    ensures Inv(Connect(s, f))
  {
    var r := Connect(s, f);
    forall g | 0 <= g < |s.refcount| ensures RefOk(r, g) && FcbStreamOk(r, g) {
      assert RefOk(s, g) && FcbStreamOk(s, g);
    }
    forall n | 0 <= n < |r.streams| ensures StreamOk(r, n) {
      if n < |s.streams| { assert StreamOk(s, n); }
    }
  }

  lemma OpenStreamKeeps(s: State, p: Pid, deviceOk: bool)
    requires Inv(s) && Connected(s) && p < |s.fidt|
    ensures Inv(OpenStream(s, p, deviceOk).s) && Connected(OpenStream(s, p, deviceOk).s)
  {
    hide RefOk, StreamOk, FcbStreamOk, Reserve, UnreserveUpTo;
    match Reserve(s, p, 1) {
      case Failed(r) => ReserveFailureKeeps(s, p, 1);
      case Reserved(r, fids, fcbs) =>
        ReserveGives(s, p, 1);
        if deviceOk {
          ConnectKeeps(r, fcbs[0]);
          assert forall f :: f in s.free ==> f == fcbs[0] || f in r.free;
        } else {
          UnreserveUndoes(s, p, 1);
        }
    }
  }

  lemma LinkKeeps(s: State, f: Fcb, p: Pid, fd: nat)
    requires Inv(s) && f < |s.refcount| && f !in s.free && p < |s.fidt| && fd < |s.fidt[p]| && s.fidt[p][fd].None?
    ensures Inv(Link(s, f, p, fd)) && (Connected(s) ==> Connected(Link(s, f, p, fd)))
  {
    hide RefOk, StreamOk, FcbStreamOk;
    IncRefKeeps(s, f);
    PutSlotKeeps(IncRef(s, f), p, fd, f);
  }

  lemma Dup2Keeps(s: State, p: Pid, oldfd: int, newfd: int)
    requires Inv(s) && Connected(s) && p < |s.fidt|
    ensures Inv(Dup2(s, p, oldfd, newfd)) && Connected(Dup2(s, p, oldfd, newfd))
  {
    hide RefOk, StreamOk, FcbStreamOk, DecRef;
    if Dup2Legal(s, p, oldfd, newfd) && s.fidt[p][oldfd] != s.fidt[p][newfd] {
      var src := s.fidt[p][oldfd].value;
      CloseFdKeeps(s, p, newfd);
      var s1 := CloseFd(s, p, newfd);
      assert s1.fidt[p][oldfd] == Some(src);
      NoSlotIsFree(s1, p, oldfd);
      LinkKeeps(s1, src, p, newfd);
    }
  }

  lemma {:induction false} InheritKeeps(s: State, p: Pid, c: Pid, n: nat)
    requires Shape(s) && Inv(s) && CanInherit(s, p, c) && n <= |s.fidt[p]|
    ensures Inv(InheritUpTo(s, p, c, n)) && (Connected(s) ==> Connected(InheritUpTo(s, p, c, n)))
  {
    hide Inv, Connected, Link;
    if n > 0 {
      InheritKeeps(s, p, c, n - 1);
      var s1 := InheritUpTo(s, p, c, n - 1);
      if s.fidt[p][n - 1].Some? {
        assert s1.fidt[p] == s.fidt[p];
        NoSlotIsFree(s1, p, n - 1);
        LinkKeeps(s1, s.fidt[p][n - 1].value, c, n - 1);
      }
    }
  }

  /** The child ends up with its parent's FIDT. */
  lemma {:induction false} InheritCopies(s: State, p: Pid, c: Pid, n: nat)
    requires Shape(s) && CanInherit(s, p, c) && n <= |s.fidt[p]|
    ensures forall i | 0 <= i < n :: InheritUpTo(s, p, c, n).fidt[c][i] == s.fidt[p][i]
  {
    hide Link;
    if n > 0 {
      InheritCopies(s, p, c, n - 1);
    }
  }

  // -------------------------------------------------------------------- runs

  datatype Action =
    | Open(p: Pid, deviceOk: bool)
    | Close(p: Pid, fd: int)
    | Dup(p: Pid, oldfd: int, newfd: int)
    | Begin(p: Pid, fd: int)
    | End(f: Fcb)
    | Exec(p: Pid, child: Pid)
    | Exit(p: Pid)

  /** When a step can be taken, whatever else is true of the state. */
  predicate Guard(s: State, a: Action) {
    match a
    case End(f) => f in s.held
    case Exec(p, c) => CanInherit(s, p, c)
    case _ => a.p < |s.fidt|
  }

  ghost predicate Enabled(s: State, a: Action) {
    Inv(s) && Guard(s, a)
  }

  ghost function Apply(s: State, a: Action): State
    requires Enabled(s, a)
  {
    match a
    case Open(p, ok) => OpenStream(s, p, ok).s
    case Close(p, fd) => CloseFd(s, p, fd)
    case Dup(p, o, n) => Dup2(s, p, o, n)
    case Begin(p, fd) => CallBegin(s, p, fd)
    case End(f) => DecRef(s, f)
    case Exec(p, c) => InheritUpTo(s, p, c, |s.fidt[p]|)
    case Exit(p) => CloseUpTo(s, p, |s.fidt[p]|)
  }

  lemma StepKeepsInv(s: State, a: Action)
    requires Enabled(s, a) && Connected(s)
    ensures Inv(Apply(s, a)) && Connected(Apply(s, a))
  {
    hide RefOk, StreamOk, FcbStreamOk, DecRef, OpenStream, Dup2, CloseFd, InheritUpTo, CloseUpTo;
    match a
    case Open(p, ok) => OpenStreamKeeps(s, p, ok);
    case Close(p, fd) => CloseFdKeeps(s, p, fd);
    case Dup(p, o, n) => Dup2Keeps(s, p, o, n);
    case Begin(p, fd) =>
      if GetFcb(s, p, fd).Some? {
        NoSlotIsFree(s, p, fd);
        IncRefKeeps(s, s.fidt[p][fd].value);
      }
    case End(f) => DecRefKeeps(s, f);
    case Exec(p, c) => InheritKeeps(s, p, c, |s.fidt[p]|);
    case Exit(p) => CloseUpToKeeps(s, p, |s.fidt[p]|);
  }

  /** After initialize_files: every FCB free, every FIDT empty. */
  function Initial(procs: nat, files: nat, width: nat): State {
    State(seq(procs, p => seq(width, i => None)), seq(files, f => 0), seq(files, f => f), multiset{}, seq(files, f => None), [])
  }

  lemma {:induction false} EmptyTable(fidt: seq<seq<Option<Fcb>>>, f: Fcb)
    requires forall p, i | 0 <= p < |fidt| && 0 <= i < |fidt[p]| :: fidt[p][i].None?
    ensures Slots(fidt, f) == 0
  {
    if fidt != [] {
      assert forall p, i | 0 <= p < |fidt[1..]| && 0 <= i < |fidt[1..][p]| :: fidt[1..][p][i].None? by {
        assert forall p | 0 <= p < |fidt[1..]| :: fidt[1..][p] == fidt[p + 1];
      }
      EmptyTable(fidt[1..], f);
      assert Some(f) !in fidt[0];
    }
  }

  lemma InitialInv(procs: nat, files: nat, width: nat)
    ensures Inv(Initial(procs, files, width)) && Connected(Initial(procs, files, width))
  {
    var s := Initial(procs, files, width);
    forall f | 0 <= f < files ensures f in s.free && RefOk(s, f) {
      assert s.free[f] == f;
      EmptyTable(s.fidt, f);
    }
  }

  lemma IsInitial(s: State, procs: nat, files: nat, width: nat)
    requires |s.fidt| == procs && (forall p | 0 <= p < procs :: |s.fidt[p]| == width)
    requires forall p, i | 0 <= p < procs && 0 <= i < width :: s.fidt[p][i].None?
    requires |s.refcount| == files && forall f | 0 <= f < files :: s.refcount[f] == 0
    requires |s.free| == files && forall f | 0 <= f < files :: s.free[f] == f
    requires s.held == multiset{} && s.stream == Initial(procs, files, width).stream && s.streams == []
    ensures s == Initial(procs, files, width)
  {
    var r := Initial(procs, files, width);
    assert s.fidt == r.fidt by {
      forall p | 0 <= p < procs ensures s.fidt[p] == r.fidt[p] {
      }
    }
    assert s.refcount == r.refcount;
    assert s.free == r.free;
  }

  /** One step; from a state without the invariant it may lead anywhere. */
  ghost predicate Step(s: State, a: Action, s': State) {
    Guard(s, a) && (Inv(s) ==> s' == Apply(s, a))
  }

  ghost predicate IsRun(run: seq<State>, acts: seq<Action>) {
    |run| == |acts| + 1 && forall k | 0 <= k < |acts| :: Step(run[k], acts[k], run[k + 1])
  }

  lemma {:induction false} RunKeepsInv(run: seq<State>, acts: seq<Action>, procs: nat, files: nat, width: nat, k: nat)
    requires IsRun(run, acts) && run[0] == Initial(procs, files, width) && k < |run|
    ensures Inv(run[k]) && Connected(run[k])
  {
    hide Inv, Connected, Guard, Apply, Initial;
    if k == 0 {
      InitialInv(procs, files, width);
    } else {
      RunKeepsInv(run, acts, procs, files, width, k - 1);
      assert Step(run[k - 1], acts[k - 1], run[k - 1 + 1]);
      StepKeepsInv(run[k - 1], acts[k - 1]);
    }
  }

  /**
   * In every reachable state an FCB off the free list has exactly as many references as its count
   * says, at least one, and a stream; a free FCB has none.
   */
  lemma RefcountsAreConserved(run: seq<State>, acts: seq<Action>, procs: nat, files: nat, width: nat, k: nat, f: Fcb)
    requires IsRun(run, acts) && run[0] == Initial(procs, files, width) && k < |run| && f < |run[k].refcount|
    ensures var s := run[k];
            && |s.stream| == |s.refcount|
            && (f !in s.free ==> s.refcount[f] == Slots(s.fidt, f) + s.held[f] && s.refcount[f] >= 1 && s.stream[f].Some?)
            && (f in s.free ==> Slots(s.fidt, f) == 0 && s.held[f] == 0)
  {
    RunKeepsInv(run, acts, procs, files, width, k);
    assert RefOk(run[k], f);
  }

  /** A stream has been closed once if nothing refers to it any more, and otherwise not at all. */
  lemma ClosedExactlyWhenUnreferenced(run: seq<State>, acts: seq<Action>, procs: nat, files: nat, width: nat, k: nat, n: nat)
    requires IsRun(run, acts) && run[0] == Initial(procs, files, width) && k < |run| && n < |run[k].streams|
    ensures var s := run[k];
            var h := s.streams[n];
            && |s.stream| == |s.refcount| && h.fcb < |s.refcount| && h.closes <= 1
            && (h.closes == 0 <==> s.stream[h.fcb] == Some(n) && Slots(s.fidt, h.fcb) + s.held[h.fcb] > 0)
  {
    RunKeepsInv(run, acts, procs, files, width, k);
    assert StreamOk(run[k], n);
    assert RefOk(run[k], run[k].streams[n].fcb);
  }

  /** FCB_decref calls Close exactly when the reference given up is the last one anywhere. */
  lemma LastReferenceCloses(s: State, f: Fcb)
    requires Inv(s) && f in s.held
    ensures Closes(s, f) <==> Slots(s.fidt, f) + s.held[f] == 1
  {
    assert RefOk(s, f);
  }

  /** Stream n is still there, on the same FCB, and no Close is taken back. */
  predicate Remembers(s: State, r: State, n: nat)
    requires n < |s.streams|
  {
    n < |r.streams| && r.streams[n].fcb == s.streams[n].fcb && r.streams[n].closes >= s.streams[n].closes
  }

  /** No step forgets a stream, moves it to another FCB or takes a Close back. */
  lemma StreamsOnlyGrow(s: State, a: Action, n: nat)
    requires Enabled(s, a) && n < |s.streams|
    ensures Remembers(s, Apply(s, a), n)
  {
    hide RefOk, StreamOk, FcbStreamOk, OpenStream, Dup2, CloseFd, Link, DecRef, InheritUpTo, CloseUpTo;
    match a
    case Open(p, ok) => OpenGrows(s, p, ok, n);
    case Close(p, fd) => CloseFdGrows(s, p, fd, n);
    case Dup(p, o, m) => Dup2Grows(s, p, o, m, n);
    case Begin(p, fd) =>
    case End(f) => DecRefGrows(s, f, n);
    case Exec(p, c) => InheritKeeps(s, p, c, |s.fidt[p]|);
    case Exit(p) => CloseUpToGrows(s, p, |s.fidt[p]|, n);
  }

  lemma OpenGrows(s: State, p: Pid, deviceOk: bool, n: nat)
    requires Inv(s) && p < |s.fidt| && n < |s.streams|
    ensures Remembers(s, OpenStream(s, p, deviceOk).s, n)
  {
    hide RefOk, StreamOk, FcbStreamOk, Reserve, UnreserveUpTo;
    match Reserve(s, p, 1) {
      case Failed(r) => ReserveFailureKeeps(s, p, 1);
      case Reserved(r, fids, fcbs) =>
        ReserveGives(s, p, 1);
        UnreserveUndoes(s, p, 1);
    }
  }

  lemma Dup2Grows(s: State, p: Pid, oldfd: int, newfd: int, n: nat)
    requires Inv(s) && p < |s.fidt| && n < |s.streams|
    ensures Remembers(s, Dup2(s, p, oldfd, newfd), n)
  {
    hide RefOk, StreamOk, FcbStreamOk, CloseFd, Link;
    CloseFdGrows(s, p, newfd, n);
  }

  lemma DecRefGrows(s: State, f: Fcb, n: nat)
    requires Shape(s) && f < |s.refcount| && n < |s.streams|
    ensures Remembers(s, DecRef(s, f), n)
  {
  }

  lemma {:induction false} CloseUpToGrows(s: State, p: Pid, k: nat, n: nat)
    requires Shape(s) && p < |s.fidt| && k <= |s.fidt[p]| && n < |s.streams|
    ensures Remembers(s, CloseUpTo(s, p, k), n)
  {
    hide CloseFd, Shape;
    if k > 0 {
      CloseUpToGrows(s, p, k - 1, n);
      CloseFdGrows(CloseUpTo(s, p, k - 1), p, k - 1, n);
    }
  }

  lemma CloseFdGrows(s: State, p: Pid, fd: int, n: nat)
    requires Shape(s) && p < |s.fidt| && n < |s.streams|
    ensures Remembers(s, CloseFd(s, p, fd), n)
  {
  }

  lemma SlotTwice(fidt: seq<seq<Option<Fcb>>>, p: Pid, i: nat, v: Option<Fcb>, w: Option<Fcb>)
    requires p < |fidt| && i < |fidt[p]|
    ensures fidt[p := fidt[p][i := v]][p := fidt[p][i := v][i := w]] == fidt[p := fidt[p][i := w]]
    ensures fidt[p := fidt[p][i := fidt[p][i]]] == fidt
  {
    assert fidt[p][i := v][i := w] == fidt[p][i := w];
    assert fidt[p][i := fidt[p][i]] == fidt[p];
  }

  /** A legal Dup2 makes newfd name oldfd's stream and changes no other slot; an illegal one changes nothing. */
  lemma Dup2Does(s: State, p: Pid, oldfd: int, newfd: int)
    requires Inv(s) && p < |s.fidt|
    ensures var r := Dup2(s, p, oldfd, newfd);
            && (Dup2Legal(s, p, oldfd, newfd) ==> r.fidt == s.fidt[p := s.fidt[p][newfd := s.fidt[p][oldfd]]] && r.held == s.held)
            && (!Dup2Legal(s, p, oldfd, newfd) ==> r == s)
  {
    hide RefOk, StreamOk, FcbStreamOk, CloseFd, Link;
    if Dup2Legal(s, p, oldfd, newfd) {
      CloseFdHolds(s, p, newfd);
      SlotTwice(s.fidt, p, newfd, None, s.fidt[p][oldfd]);
    }
  }

  /** FCB_decref on the FCB of a slot, before the slot is cleared. */
  function DropFirst(s: State, p: Pid, fd: int): State
    requires Shape(s) && p < |s.fidt|
  {
    if GetFcb(s, p, fd).None? then s
    else DecRef(s.(held := s.held + multiset{s.fidt[p][fd].value}), s.fidt[p][fd].value)
  }

  /** Clearing the slot before or after makes no difference. */
  lemma DropFirstThenClear(s: State, p: Pid, fd: nat)
    requires Shape(s) && p < |s.fidt| && fd < |s.fidt[p]|
    ensures DropFirst(s, p, fd).fidt == s.fidt
    ensures SetSlot(DropFirst(s, p, fd), p, fd, None) == CloseFd(s, p, fd)
  {
    SlotTwice(s.fidt, p, fd, None, None);
  }

  /** sys_Dup2 drops the old stream of newfd while the slot still names it; that comes to the same. */
  lemma Dup2InOrder(s: State, p: Pid, oldfd: int, newfd: int)
    requires Inv(s) && p < |s.fidt| && Dup2Legal(s, p, oldfd, newfd) && s.fidt[p][oldfd] != s.fidt[p][newfd]
    ensures var src := s.fidt[p][oldfd].value;
            |DropFirst(s, p, newfd).refcount| == |s.refcount| && DropFirst(s, p, newfd).fidt == s.fidt &&
            Dup2(s, p, oldfd, newfd) == PutSlot(IncRef(DropFirst(s, p, newfd), src), p, newfd, src)
  {
    hide RefOk, StreamOk, FcbStreamOk, CloseFd, DropFirst;
    var src := s.fidt[p][oldfd];
    DropFirstThenClear(s, p, newfd);
    SlotTwice(s.fidt, p, newfd, None, src);
    DropFirstSize(s, p, newfd);
  }

  lemma DropFirstSize(s: State, p: Pid, fd: int)
    requires Shape(s) && p < |s.fidt|
    ensures |DropFirst(s, p, fd).refcount| == |s.refcount|
  {
  }

  lemma CloseFdHolds(s: State, p: Pid, fd: int)
    requires Shape(s) && p < |s.fidt|
    ensures CloseFd(s, p, fd).held == s.held
  {
    if GetFcb(s, p, fd).Some? {
      var f := s.fidt[p][fd].value;
      assert s.held + multiset{f} - multiset{f} == s.held;
    }
  }

  /** A process with no open files gets fids 0 and 1 from a reservation of two. */
  lemma ConsoleGetsFirstFids(s: State, p: Pid)
    requires Inv(s) && p < |s.fidt| && |s.fidt[p]| >= 2 && s.fidt[p][0].None? && s.fidt[p][1].None?
    ensures Reserve(s, p, 2).Reserved? <==> |s.free| >= 2
    ensures Reserve(s, p, 2).Reserved? ==> Reserve(s, p, 2).fids == [0, 1]
  {
    assert FreeFids(s.fidt[p], 2, 0) == [];
    assert FreeFids(s.fidt[p], 1, 1) == [1];
  }

  /** A system call on streams changes no process's file table but its own, and none's size. */
  lemma OwnRowOnly(s: State, a: Action)
    requires Enabled(s, a) && !a.Exec? && !a.Exit?
    ensures var r := Apply(s, a);
            && |r.fidt| == |s.fidt|
            && (forall q | 0 <= q < |s.fidt| :: |r.fidt[q]| == |s.fidt[q]|)
            && (forall q | 0 <= q < |s.fidt| && (a.End? || q != a.p) :: r.fidt[q] == s.fidt[q])
  {
    hide RefOk, StreamOk, FcbStreamOk, Reserve, UnreserveUpTo, Link, Dup2;
    match a
    case Open(p, ok) =>
      if Reserve(s, p, 1).Failed? {
        ReserveFailureKeeps(s, p, 1);
      } else {
        ReserveGives(s, p, 1);
        UnreserveUndoes(s, p, 1);
      }
    case Dup(p, o, n) => Dup2Does(s, p, o, n);
    case _ =>
  }
}
