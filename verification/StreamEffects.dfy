// What a call of Read, Write or open_stream changes, over the fields of the tables, and what the
// references held by calls in progress add up to over a whole run.

module StreamEffects {
  import opened Lists
  import opened Streams

  /** fd is an open fid of p, and names f. */
  predicate Names(s: State, p: Pid, fd: int, f: Fcb) {
    p < |s.fidt| && 0 <= fd < |s.fidt[p]| && s.fidt[p][fd] == Some(f)
  }

  predicate IsOpen(s: State, p: Pid, fd: int) {
    p < |s.fidt| && 0 <= fd < |s.fidt[p]| && s.fidt[p][fd].Some?
  }

  /** sys_Read and sys_Write take one reference to the FCB that fd names, and touch nothing if it names none. */
  predicate BeginDoes(s: State, p: Pid, fd: int, r: State) {
    if IsOpen(s, p, fd) then
      var f := s.fidt[p][fd].value;
      && f < |s.refcount| && r.refcount == s.refcount[f := s.refcount[f] + 1] && r.held == s.held + multiset{f}
      && r.fidt == s.fidt && r.free == s.free && r.stream == s.stream && r.streams == s.streams
    else r == s
  }

  lemma BeginEffect(s: State, p: Pid, fd: int)
    requires Enabled(s, Begin(p, fd))
    ensures BeginDoes(s, p, fd, Apply(s, Begin(p, fd)))
  {
    hide RefOk, StreamOk, FcbStreamOk;
  }

  /** After the device's call they give it back: with the last reference the FCB is free and its stream closed. */
  predicate EndDoes(s: State, f: Fcb, r: State) {
    && f < |s.refcount| && f < |s.stream| && s.stream[f].Some? && s.stream[f].value < |s.streams|
    && r.refcount == s.refcount[f := s.refcount[f] - 1] && r.held == s.held - multiset{f} && r.fidt == s.fidt && r.stream == s.stream
    && var n := s.stream[f].value;
    if Slots(s.fidt, f) + s.held[f] == 1
    then r.free == s.free + [f] && r.streams == s.streams[n := s.streams[n].(closes := s.streams[n].closes + 1)]
    else r.free == s.free && r.streams == s.streams
  }

  lemma EndEffect(s: State, f: Fcb)
    requires Enabled(s, End(f)) && Connected(s)
    ensures EndDoes(s, f, Apply(s, End(f)))
  {
    hide StreamOk, FcbStreamOk, RefOk;
    LastReferenceCloses(s, f);
    HeldIsBusy(s, f);
  }

  /** What each call makes of the file tables. */
  lemma StepRows(s: State, a: Action)
    requires Enabled(s, a)
    ensures var r := Apply(s, a);
            && |r.fidt| == |s.fidt|
            && (a.Close? ==> r.fidt == if IsOpen(s, a.p, a.fd) then s.fidt[a.p := s.fidt[a.p][a.fd := None]] else s.fidt)
            && (a.Dup? ==> r.fidt == if IsOpen(s, a.p, a.oldfd) && 0 <= a.newfd < |s.fidt[a.p]|
                                     then s.fidt[a.p := s.fidt[a.p][a.newfd := s.fidt[a.p][a.oldfd]]] else s.fidt)
            && (a.Begin? || a.End? ==> r.fidt == s.fidt)
            && (a.Exec? ==> r.fidt == s.fidt[a.child := s.fidt[a.p]])
            && (a.Exit? ==>
                 && r.fidt == s.fidt[a.p := r.fidt[a.p]] && |r.fidt[a.p]| == |s.fidt[a.p]|
                 && forall i | 0 <= i < |s.fidt[a.p]| :: r.fidt[a.p][i].None?)
  {
    hide RefOk, StreamOk, FcbStreamOk, DecRef, OpenStream, Dup2, CloseFd, InheritUpTo, CloseUpTo, CallBegin;
    match a
    case Close(p, fd) => if !IsOpen(s, p, fd) { CloseNone(s, p, fd); }
    case Dup(p, o, n) => Dup2Does(s, p, o, n);
    case Begin(p, fd) => BeginEffect(s, p, fd);
    case Exec(p, c) => ExecRows(s, p, c);
    case Exit(p) => CloseUpToKeeps(s, p, |s.fidt[p]|);
    case End(g) => EndRows(s, g);
    case Open(_, _) => OwnRowOnly(s, a);
  }

  lemma CloseNone(s: State, p: Pid, fd: int)
    requires Shape(s) && p < |s.fidt| && !IsOpen(s, p, fd)
    ensures CloseFd(s, p, fd) == s
  {
  }

  lemma ExecRows(s: State, p: Pid, c: Pid)
    requires Enabled(s, Exec(p, c))
    ensures Apply(s, Exec(p, c)).fidt == s.fidt[c := s.fidt[p]]
  {
    hide RefOk, StreamOk, FcbStreamOk, InheritUpTo;
    InheritCopies(s, p, c, |s.fidt[p]|);
    assert Apply(s, Exec(p, c)).fidt[c] == s.fidt[p];
  }

  lemma EndRows(s: State, g: Fcb)
    requires Enabled(s, End(g))
    ensures Apply(s, End(g)).fidt == s.fidt
  {
    hide RefOk, StreamOk, FcbStreamOk;
  }

  // --------------------------------------------------- what is held, in runs

  /** Step a is a Read or Write on a fid that names f. */
  predicate BeginsOn(s: State, a: Action, f: Fcb) {
    a.Begin? && Names(s, a.p, a.fd, f)
  }

  lemma {:induction false} CloseUpToHolds(s: State, p: Pid, n: nat)
    requires Shape(s) && p < |s.fidt| && n <= |s.fidt[p]|
    ensures CloseUpTo(s, p, n).held == s.held
  {
    hide Shape, CloseFd;
    if n > 0 {
      CloseUpToHolds(s, p, n - 1);
      CloseFdHolds(CloseUpTo(s, p, n - 1), p, n - 1);
    }
  }

  lemma OpenHolds(s: State, p: Pid, deviceOk: bool)
    requires Inv(s) && p < |s.fidt|
    ensures OpenStream(s, p, deviceOk).s.held == s.held
  {
    hide RefOk, StreamOk, FcbStreamOk, Reserve, UnreserveUpTo;
    match Reserve(s, p, 1) {
      case Failed(_) => ReserveFailureKeeps(s, p, 1);
      case Reserved(_, _, _) =>
        ReserveGives(s, p, 1);
        UnreserveUndoes(s, p, 1);
    }
  }

  /** Only Read and Write change what is held. */
  lemma HeldStep(s: State, a: Action, f: Fcb)
    requires Enabled(s, a)
    ensures Apply(s, a).held[f] == s.held[f] + (if BeginsOn(s, a, f) then 1 else 0) - (if a == End(f) then 1 else 0)
  {
    hide RefOk, StreamOk, FcbStreamOk, DecRef, OpenStream, Dup2, CloseFd, InheritUpTo, CloseUpTo, Shape, CallBegin;
    match a
    case Open(p, ok) => OpenHolds(s, p, ok);
    case Close(p, fd) => CloseFdHolds(s, p, fd);
    case Dup(p, o, n) => Dup2Does(s, p, o, n);
    case Begin(p, fd) => BeginEffect(s, p, fd);
    case End(g) => DecRefHolds(s, g);
    case Exec(p, c) =>
    case Exit(p) => CloseUpToHolds(s, p, |s.fidt[p]|);
  }

  lemma DecRefHolds(s: State, g: Fcb)
    requires Enabled(s, End(g))
    ensures Apply(s, End(g)).held == s.held - multiset{g}
  {
    hide RefOk, StreamOk, FcbStreamOk;
  }

  /** How many of the first k steps were a Read or Write that began on f; and how many ended one on f. */
  function Begun(run: seq<State>, acts: seq<Action>, k: nat, f: Fcb): nat
    requires k <= |acts| && k <= |run|
  {
    if k == 0 then 0 else Begun(run, acts, k - 1, f) + if BeginsOn(run[k - 1], acts[k - 1], f) then 1 else 0
  }

  function Ended(acts: seq<Action>, k: nat, f: Fcb): nat
    requires k <= |acts|
  {
    if k == 0 then 0 else Ended(acts, k - 1, f) + if acts[k - 1] == End(f) then 1 else 0
  }

  /** The references held are those of the calls that have begun and not ended. */
  lemma {:induction false} HeldCountsCalls(run: seq<State>, acts: seq<Action>, procs: nat, files: nat, width: nat, k: nat, f: Fcb)
    requires IsRun(run, acts) && run[0] == Initial(procs, files, width) && k < |run|
    ensures run[k].held[f] == Begun(run, acts, k, f) - Ended(acts, k, f)
  {
    hide Inv, Connected, Guard, Apply;
    if k > 0 {
      HeldCountsCalls(run, acts, procs, files, width, k - 1, f);
      RunKeepsInv(run, acts, procs, files, width, k - 1);
      assert Step(run[k - 1], acts[k - 1], run[k - 1 + 1]);
      HeldStep(run[k - 1], acts[k - 1], f);
    }
  }

  /** So the count of an FCB in use is the number of slots that name it and of the calls in progress on it. */
  lemma CountsAreSlotsAndCalls(run: seq<State>, acts: seq<Action>, procs: nat, files: nat, width: nat, k: nat, f: Fcb)
    requires IsRun(run, acts) && run[0] == Initial(procs, files, width) && k < |run| && f < |run[k].refcount|
    ensures f !in run[k].free ==> run[k].refcount[f] == Slots(run[k].fidt, f) + Begun(run, acts, k, f) - Ended(acts, k, f)
    ensures Begun(run, acts, k, f) > Ended(acts, k, f) ==> f !in run[k].free
  {
    hide IsRun;
    HeldCountsCalls(run, acts, procs, files, width, k, f);
    RefcountsAreConserved(run, acts, procs, files, width, k, f);
  }

  /** A process may make any call on streams, and a Read or Write in progress can end. */
  lemma CallsMayBeMade(run: seq<State>, acts: seq<Action>, procs: nat, files: nat, width: nat, k: nat, p: Pid, fd: int, newfd: int, ok: bool, f: Fcb)
    requires IsRun(run, acts) && run[0] == Initial(procs, files, width) && k < |run|
    ensures p < |run[k].fidt| ==>
              && Enabled(run[k], Open(p, ok)) && Enabled(run[k], Close(p, fd)) && Enabled(run[k], Dup(p, fd, newfd))
              && Enabled(run[k], Begin(p, fd)) && Enabled(run[k], Exit(p))
    ensures Begun(run, acts, k, f) > Ended(acts, k, f) ==> Enabled(run[k], End(f))
  {
    hide IsRun, Inv, Initial;
    RunKeepsInv(run, acts, procs, files, width, k);
    HeldCountsCalls(run, acts, procs, files, width, k, f);
  }

  // -------------------------------------- a call in progress keeps its stream

  /** An FCB in use keeps its stream. */
  lemma StreamStays(s: State, a: Action, f: Fcb)
    requires Enabled(s, a) && f < |s.refcount| && f !in s.free
    ensures var r := Apply(s, a); |r.refcount| == |s.refcount| && |r.stream| == |s.stream| && f < |s.stream| && r.stream[f] == s.stream[f]
  {
    hide RefOk, StreamOk, FcbStreamOk, DecRef, OpenStream, Dup2, CloseFd, InheritUpTo, CloseUpTo, CallBegin;
    match a
    case Open(p, ok) => OpenStays(s, p, ok, f);
    case Close(p, fd) => CloseStays(s, p, fd);
    case Dup(p, o, n) => Dup2Stays(s, p, o, n);
    case Begin(p, fd) => BeginEffect(s, p, fd);
    case End(g) => DecRefStays(s, g);
    case Exec(p, c) =>
    case Exit(p) => CloseUpToStays(s, p, |s.fidt[p]|);
  }

  lemma OpenStays(s: State, p: Pid, deviceOk: bool, f: Fcb)
    requires Inv(s) && p < |s.fidt| && f < |s.refcount| && f !in s.free
    ensures var r := OpenStream(s, p, deviceOk).s; |r.refcount| == |s.refcount| && |r.stream| == |s.stream| && r.stream[f] == s.stream[f]
  {
    hide RefOk, StreamOk, FcbStreamOk, Reserve, UnreserveUpTo;
    match Reserve(s, p, 1) {
      case Failed(r) => ReserveFailureKeeps(s, p, 1);
      case Reserved(r, fids, fcbs) =>
        ReserveGives(s, p, 1);
        UnreserveUndoes(s, p, 1);
        assert fcbs[0] in s.free;
    }
  }

  lemma CloseStays(s: State, p: Pid, fd: int)
    requires Shape(s) && p < |s.fidt|
    ensures CloseFd(s, p, fd).stream == s.stream && |CloseFd(s, p, fd).refcount| == |s.refcount|
  {
  }

  lemma Dup2Stays(s: State, p: Pid, oldfd: int, newfd: int)
    requires Inv(s) && p < |s.fidt|
    ensures var r := Dup2(s, p, oldfd, newfd); r.stream == s.stream && |r.refcount| == |s.refcount|
  {
    hide RefOk, StreamOk, FcbStreamOk, CloseFd, Link;
    CloseStays(s, p, newfd);
  }

  lemma DecRefStays(s: State, g: Fcb)
    requires Enabled(s, End(g))
    ensures var r := Apply(s, End(g)); r.stream == s.stream && |r.refcount| == |s.refcount|
  {
    hide RefOk, StreamOk, FcbStreamOk;
  }

  lemma {:induction false} CloseUpToStays(s: State, p: Pid, n: nat)
    requires Shape(s) && p < |s.fidt| && n <= |s.fidt[p]|
    ensures var r := CloseUpTo(s, p, n); r.stream == s.stream && |r.refcount| == |s.refcount|
  {
    hide Shape, CloseFd;
    if n > 0 {
      CloseUpToStays(s, p, n - 1);
      CloseStays(CloseUpTo(s, p, n - 1), p, n - 1);
    }
  }

  /** Stream n is the one on f, and has not been closed. */
  predicate Serves(s: State, f: Fcb, n: nat) {
    |s.stream| == |s.refcount| && f < |s.refcount| && f !in s.free && s.stream[f] == Some(n) && n < |s.streams| && s.streams[n] == Stream(f, 0)
  }

  lemma InUseIsServed(s: State, f: Fcb)
    requires Inv(s) && Connected(s) && f < |s.refcount| && f !in s.free
    ensures s.stream[f].Some? && Serves(s, f, s.stream[f].value)
  {
    assert FcbStreamOk(s, f);
    assert StreamOk(s, s.stream[f].value);
  }

  /** From a Read or Write at step i on f and for as long as not all such calls have ended, the stream on f is the same and open. */
  lemma {:induction false} CallsKeepTheirStream(run: seq<State>, acts: seq<Action>, procs: nat, files: nat, width: nat, i: nat, j: nat, f: Fcb)
      returns (n: nat)
    requires IsRun(run, acts) && run[0] == Initial(procs, files, width) && i < j < |run| && BeginsOn(run[i], acts[i], f)
    requires forall k | i < k <= j :: Begun(run, acts, k, f) > Ended(acts, k, f)
    ensures forall k | i < k <= j :: Serves(run[k], f, n)
  {
    hide Inv, Connected, Guard, Apply, Begun, Ended, BeginsOn;
    RunKeepsInv(run, acts, procs, files, width, j);
    HeldCountsCalls(run, acts, procs, files, width, j, f);
    HeldInUse(run[j], f);
    if j == i + 1 {
      InUseIsServed(run[j], f);
      n := run[j].stream[f].value;
    } else {
      n := CallsKeepTheirStream(run, acts, procs, files, width, i, j - 1, f);
      RunKeepsInv(run, acts, procs, files, width, j - 1);
      assert Step(run[j - 1], acts[j - 1], run[j - 1 + 1]);
      StreamStays(run[j - 1], acts[j - 1], f);
      InUseIsServed(run[j], f);
    }
  }

  lemma HeldInUse(s: State, f: Fcb)
    requires Inv(s) && s.held[f] > 0
    ensures f < |s.refcount| && f !in s.free
  {
    assert RefOk(s, f);
  }

  // ------------------------------------------------------------ open_stream

  /** fid is the smallest fid that p does not use. */
  predicate SmallestUnused(s: State, p: Pid, fid: int) {
    && p < |s.fidt| && 0 <= fid < |s.fidt[p]| && s.fidt[p][fid].None?
    && forall i | 0 <= i < fid :: s.fidt[p][i].Some?
  }

  predicate HasUnused(s: State, p: Pid) {
    p < |s.fidt| && exists i :: 0 <= i < |s.fidt[p]| && s.fidt[p][i].None?
  }

  /** The smallest unused fid, for a free FCB with one reference and a new stream. */
  predicate OpensAt(s: State, p: Pid, fid: int, r: State) {
    && SmallestUnused(s, p, fid) && s.free != [] && s.free[0] < |s.refcount| == |s.stream|
    && var f := s.free[0];
    && r.fidt == s.fidt[p := s.fidt[p][fid := Some(f)]] && r.free == s.free[1..] && r.refcount == s.refcount[f := 1]
    && r.stream == s.stream[f := Some(|s.streams|)] && r.streams == s.streams + [Stream(f, 0)] && r.held == s.held
  }

  /** Nothing is opened, and no FCB in use notices. */
  ghost predicate OpensNothing(s: State, r: State) {
    && r.fidt == s.fidt && r.streams == s.streams && r.held == s.held
    && |r.refcount| == |s.refcount| && |r.stream| == |s.stream| == |s.refcount| && |r.free| == |s.free|
    && (forall f :: f in r.free <==> f in s.free)
    && (forall f | 0 <= f < |s.refcount| && f !in s.free :: r.refcount[f] == s.refcount[f] && r.stream[f] == s.stream[f])
  }

  ghost predicate OpenDoes(s: State, p: Pid, deviceOk: bool, r: State, fid: int) {
    if deviceOk && HasUnused(s, p) && s.free != [] then OpensAt(s, p, fid, r) else fid == NOFILE && OpensNothing(s, r)
  }

  lemma OpenEffect(s: State, p: Pid, deviceOk: bool)
    requires Inv(s) && p < |s.fidt|
    ensures var o := OpenStream(s, p, deviceOk); OpenDoes(s, p, deviceOk, o.s, o.fid)
  {
    hide RefOk, StreamOk, FcbStreamOk, Reserve, UnreserveUpTo, OpensAt, OpensNothing;
    ReserveSucceedsIff(s, p, 1);
    SomeNone(s.fidt[p]);
    match Reserve(s, p, 1) {
      case Failed(_) => FailedOpens(s, p);
      case Reserved(_, _, _) => if deviceOk { DeviceOpens(s, p); } else { RefusedOpens(s, p); }
    }
  }

  lemma SomeNone(row: seq<Option<Fcb>>)
    ensures multiset(row)[None] >= 1 <==> exists i :: 0 <= i < |row| && row[i].None?
  {
    assert multiset(row)[None] >= 1 <==> None in row;
  }

  lemma FailedOpens(s: State, p: Pid)
    requires Inv(s) && p < |s.fidt| && Reserve(s, p, 1).Failed?
    ensures OpensNothing(s, Reserve(s, p, 1).s)
  {
    hide RefOk, StreamOk, FcbStreamOk, Reserve;
    ReserveFailureKeeps(s, p, 1);
  }

  lemma RefusedOpens(s: State, p: Pid)
    requires Inv(s) && p < |s.fidt| && Reserve(s, p, 1).Reserved?
    ensures var Reserved(r, fids, fcbs) := Reserve(s, p, 1);
            && p < |r.fidt| && |fids| == |fcbs| == 1 && (forall k | 0 <= k < 1 :: fids[k] < |r.fidt[p]|)
            && OpensNothing(s, UnreserveUpTo(r, p, fids, fcbs, 1))
  {
    hide RefOk, StreamOk, FcbStreamOk, Reserve, UnreserveUpTo;
    UnreserveUndoes(s, p, 1);
  }

  lemma DeviceOpens(s: State, p: Pid)
    requires Inv(s) && p < |s.fidt| && Reserve(s, p, 1).Reserved?
    ensures var Reserved(r, fids, fcbs) := Reserve(s, p, 1);
            |fids| == |fcbs| == 1 && fcbs[0] < |r.stream| && OpensAt(s, p, fids[0], Connect(r, fcbs[0]))
  {
    hide RefOk, StreamOk, FcbStreamOk, Reserve;
    ReserveGives(s, p, 1);
    var Reserved(r, fids, fcbs) := Reserve(s, p, 1);
    var f, c := fcbs[0], Connect(r, fcbs[0]);
    assert s.free[0] == f && s.free[1..] == r.free;
    assert c.fidt[p] == s.fidt[p][fids[0] := Some(f)];
    assert c.fidt == s.fidt[p := s.fidt[p][fids[0] := Some(f)]];
    assert c.refcount == s.refcount[f := 1];
    assert c.stream == s.stream[f := Some(|s.streams|)];
  }
}
