// kernel_streams.c in place: FT's reference counts, FCB_freelist and the FIDT of every process,
// and the functions that change them, proved to be the operations of `Streams`.

module StreamsKernel {
  import opened Lists
  import opened Streams
  import StreamEffects

  class Files {
    const FIDT: array2<Option<Fcb>>
    const refcount: array<int>
    var freelist: seq<Fcb>
    ghost var held: multiset<Fcb>
    ghost var stream: seq<Option<nat>>
    ghost var streams: seq<Stream>

    ghost function Row(p: Pid): (r: seq<Option<Fcb>>)
      reads FIDT
      requires p < FIDT.Length0
      ensures |r| == FIDT.Length1 && forall i | 0 <= i < |r| :: r[i] == FIDT[p, i]
    {
      seq(FIDT.Length1, i requires 0 <= i < FIDT.Length1 reads FIDT => FIDT[p, i])
    }

    ghost function Table(): (r: seq<seq<Option<Fcb>>>)
      reads FIDT
      ensures |r| == FIDT.Length0 && forall p | 0 <= p < |r| :: r[p] == Row(p)
    {
      seq(FIDT.Length0, p requires 0 <= p < FIDT.Length0 reads FIDT => Row(p))
    }

    ghost function View(): State
      reads this, FIDT, refcount
    {
      State(Table(), refcount[..], freelist, held, stream, streams)
    }

    method SetFid(p: Pid, fd: nat, v: Option<Fcb>)
      requires p < FIDT.Length0 && fd < FIDT.Length1
      modifies FIDT
      ensures Table() == old(Table())[p := old(Table())[p][fd := v]]
    {
      ghost var was := Table();
      FIDT[p, fd] := v;
      assert Table()[p] == was[p][fd := v];
      forall q | 0 <= q < FIDT.Length0 && q != p ensures Table()[q] == was[q] {
        assert forall i | 0 <= i < FIDT.Length1 :: FIDT[q, i] == was[q][i];
      }
    }

    /** initialize_files, with every process's FIDT empty as initialize_PCB leaves it. */
    constructor Init(procs: nat, files: nat, width: nat)
      ensures View() == Initial(procs, files, width) && Inv(View()) && Connected(View())
      ensures fresh(FIDT) && fresh(refcount) && FIDT.Length0 == procs
    {
      hide Initial;
      FIDT := new Option<Fcb>[procs, width];
      refcount := new int[files];
      freelist, held, streams := [], multiset{}, [];
      stream := Initial(procs, files, width).stream;
      new;
      for p := 0 to procs
        invariant forall q, j | 0 <= q < p && 0 <= j < width :: FIDT[q, j].None?
        modifies FIDT
      {
        for i := 0 to width
          invariant forall q, j | 0 <= q < p && 0 <= j < width :: FIDT[q, j].None?
          invariant forall j | 0 <= j < i :: FIDT[p, j].None?
          modifies FIDT
        {
          FIDT[p, i] := None;
        }
      }
      for i := 0 to files
        invariant forall f | 0 <= f < i :: refcount[f] == 0
        invariant |freelist| == i && forall f | 0 <= f < i :: freelist[f] == f
        invariant forall p, j | 0 <= p < procs && 0 <= j < width :: FIDT[p, j].None?
        invariant held == multiset{} && stream == Initial(procs, files, width).stream && streams == []
      {
        refcount[i] := 0;
        freelist := freelist + [i];
      }
      IsInitial(View(), procs, files, width);
      InitialInv(procs, files, width);
    }

    method AcquireFCB() returns (fcb: Option<Fcb>)
      requires freelist != [] ==> freelist[0] < refcount.Length
      modifies this`freelist, refcount
      ensures old(freelist) == [] ==> fcb.None? && View() == old(View())
      ensures old(freelist) != [] ==> fcb == Some(old(freelist)[0])
      ensures old(freelist) != [] ==> View() == old(View()).(free := old(freelist)[1..], refcount := old(refcount[..])[old(freelist)[0] := 0])
    {
      if freelist != [] {
        fcb := Some(freelist[0]);
        freelist := freelist[1..];
        refcount[fcb.value] := 0;
      } else {
        fcb := None;
      }
    }

    method ReleaseFCB(fcb: Fcb)
      modifies this`freelist
      ensures View() == old(View()).(free := old(freelist) + [fcb])
    {
      freelist := freelist + [fcb];
    }

    method FCBIncref(fcb: Fcb)
      requires fcb < refcount.Length
      modifies refcount, this`held
      ensures View() == IncRef(old(View()), fcb)
    {
      refcount[fcb] := refcount[fcb] + 1;
      held := held + multiset{fcb};
    }

    /** `closeRet` is what the device's Close would return. */
    method FCBDecref(fcb: Fcb, closeRet: int) returns (ret: int)
      requires Shape(View()) && fcb < refcount.Length
      modifies refcount, this`held, this`freelist, this`streams
      ensures View() == DecRef(old(View()), fcb)
      ensures ret == if Closes(old(View()), fcb) then closeRet else 0
    {
      refcount[fcb] := refcount[fcb] - 1;
      held := held - multiset{fcb};
      if refcount[fcb] == 0 {
        streams := Closed(streams, stream[fcb]);
        ret := closeRet;
        ReleaseFCB(fcb);
      } else {
        ret := 0;
      }
    }

    method GetFcb(p: Pid, fd: int) returns (fcb: Option<Fcb>)
      requires p < FIDT.Length0
      ensures fcb == Streams.GetFcb(View(), p, fd)
    {
      if fd < 0 || fd >= FIDT.Length1 { return None; }
      return FIDT[p, fd];
    }

    /** sys_Read and sys_Write up to the device call. */
    method CallBegin(p: Pid, fd: int) returns (fcb: Option<Fcb>)
      requires p < FIDT.Length0 && Inv(View())
      modifies refcount, this`held
      ensures View() == Streams.CallBegin(old(View()), p, fd) && fcb == Streams.GetFcb(old(View()), p, fd)
      ensures StreamEffects.BeginDoes(old(View()), p, fd, View())
    {
      StreamEffects.BeginEffect(View(), p, fd);
      fcb := GetFcb(p, fd);
      if fcb.Some? {
        assert View().fidt[p][fd] == fcb;
        FCBIncref(fcb.value);
      }
    }

    method SysClose(p: Pid, fd: int, closeRet: int) returns (ret: int)
      requires p < FIDT.Length0 && Inv(View())
      modifies FIDT, refcount, this`held, this`freelist, this`streams
      ensures View() == CloseFd(old(View()), p, fd)
      ensures ret == if fd < 0 || fd >= FIDT.Length1 then -1
                     else if old(FIDT[p, fd]).Some? && Closes(old(View()), old(FIDT[p, fd]).value) then closeRet else 0
    {
      ret := if fd >= 0 && fd < FIDT.Length1 then 0 else -1;
      var fcb := GetFcb(p, fd);
      if fcb.Some? {
        assert View().fidt[p][fd] == fcb;
        SetFid(p, fd, None);
        held := held + multiset{fcb.value};
        assert View() == TakeSlot(old(View()), p, fd);
        ret := FCBDecref(fcb.value, closeRet);
      }
    }

    /** FCB_decref on the FCB of a slot, if there is one. */
    method Drop(p: Pid, fd: nat, closeRet: int)
      requires p < FIDT.Length0 && fd < FIDT.Length1 && Shape(View())
      modifies refcount, this`held, this`freelist, this`streams
      ensures View() == DropFirst(old(View()), p, fd)
    {
      assert View().fidt[p][fd] == FIDT[p, fd];
      if FIDT[p, fd].Some? {
        held := held + multiset{FIDT[p, fd].value};
        var _ := FCBDecref(FIDT[p, fd].value, closeRet);
      }
    }

    /** FCB_decref on the old FCB, FCB_incref on the new one, and the slot. */
    method Rebind(p: Pid, fd: nat, src: Fcb, closeRet: int)
      requires p < FIDT.Length0 && fd < FIDT.Length1 && Shape(View()) && src < refcount.Length
      requires |DropFirst(View(), p, fd).refcount| == refcount.Length && DropFirst(View(), p, fd).fidt == View().fidt
      modifies FIDT, refcount, this`held, this`freelist, this`streams
      ensures |DropFirst(old(View()), p, fd).refcount| == refcount.Length
      ensures View() == PutSlot(IncRef(DropFirst(old(View()), p, fd), src), p, fd, src)
    {
      hide Shape, DropFirst;
      Drop(p, fd, closeRet);
      FCBIncref(src);
      SetFid(p, fd, Some(src));
      held := held - multiset{src};
    }

    method SysDup2(p: Pid, oldfd: int, newfd: int, closeRet: int) returns (ret: int)
      requires p < FIDT.Length0 && Inv(View())
      modifies FIDT, refcount, this`held, this`freelist, this`streams
      ensures View() == Dup2(old(View()), p, oldfd, newfd)
      ensures ret == if Dup2Legal(old(View()), p, oldfd, newfd) then 0 else -1
    {
      hide RefOk, StreamOk, FcbStreamOk, DropFirst, Distinct, IncRef, PutSlot;
      ret := 0;
      if oldfd < 0 || newfd < 0 || oldfd >= FIDT.Length1 || newfd >= FIDT.Length1 {
        return -1;
      }
      var src := GetFcb(p, oldfd);
      var dst := GetFcb(p, newfd);
      if src.None? {
        ret := -1;
      } else if src != dst {
        ghost var s := View();
        Dup2InOrder(s, p, oldfd, newfd);
        Rebind(p, newfd, src.value, closeRet);
      }
    }

    /** newproc->FIDT[i] = curproc->FIDT[i], and a reference more. */
    method CopySlot(p: Pid, c: Pid, i: nat)
      requires p < FIDT.Length0 && c < FIDT.Length0 && i < FIDT.Length1 && Shape(View()) && FIDT[c, i].None?
      modifies FIDT, refcount, this`held
      ensures View() == if old(View()).fidt[p][i].None? then old(View()) else Link(old(View()), old(View()).fidt[p][i].value, c, i)
    {
      ghost var s := View();
      assert s.fidt[p][i] == FIDT[p, i] && s.fidt[c][i] == None;
      SlotTwice(s.fidt, c, i, None, None);
      var f := FIDT[p, i];
      SetFid(c, i, f);
      if f.Some? {
        FCBIncref(f.value);
        held := held - multiset{f.value};
      }
    }

    /** The loop of sys_Exec that copies the parent's streams. */
    method Inherit(p: Pid, c: Pid)
      requires Shape(View()) && CanInherit(View(), p, c)
      modifies FIDT, refcount, this`held
      ensures View() == InheritUpTo(old(View()), p, c, FIDT.Length1)
    {
      hide Shape, Link;
      for i := 0 to FIDT.Length1
        invariant View() == InheritUpTo(old(View()), p, c, i)
      {
        assert View().fidt[p][i] == FIDT[p, i] && View().fidt[c][i] == FIDT[c, i];
        CopySlot(p, c, i);
      }
    }

    /** FCB_decref, and then FIDT[i] = NULL. */
    method DropSlot(p: Pid, i: nat)
      requires p < FIDT.Length0 && i < FIDT.Length1 && Shape(View())
      modifies FIDT, refcount, this`held, this`freelist, this`streams
      ensures View() == CloseFd(old(View()), p, i)
    {
      hide Shape, DropFirst;
      DropFirstThenClear(View(), p, i);
      SlotTwice(View().fidt, p, i, None, None);
      assert View().fidt[p][i] == FIDT[p, i];
      ghost var s := View();
      if FIDT[p, i].Some? {
        Drop(p, i, 0);
        SetFid(p, i, None);
      }
    }

    /** The loop of sys_Exit that drops the streams. */
    method CloseAll(p: Pid)
      requires p < FIDT.Length0 && Inv(View())
      modifies FIDT, refcount, this`held, this`freelist, this`streams
      ensures View() == CloseUpTo(old(View()), p, FIDT.Length1)
      ensures forall i | 0 <= i < FIDT.Length1 :: FIDT[p, i].None?
    {
      ghost var s := View();
      DropAll(p);
      CloseUpToKeeps(s, p, FIDT.Length1);
      forall i | 0 <= i < FIDT.Length1 ensures FIDT[p, i].None? {
        assert View().fidt[p][i] == FIDT[p, i];
      }
    }

    method DropAll(p: Pid)
      requires p < FIDT.Length0 && Shape(View())
      modifies FIDT, refcount, this`held, this`freelist, this`streams
      ensures View() == CloseUpTo(old(View()), p, FIDT.Length1)
    {
      hide Shape, CloseFd;
      for i := 0 to FIDT.Length1
        invariant View() == CloseUpTo(old(View()), p, i)
      {
        DropSlot(p, i);
      }
    }

    method FCBReserve(p: Pid, num: nat) returns (ok: bool, fid: seq<nat>, fcb: seq<Fcb>)
      requires p < FIDT.Length0 && Inv(View())
      modifies FIDT, refcount, this`freelist, this`held, this`stream
      ensures var r := Reserve(old(View()), p, num); View() == r.s && ok == r.Reserved? && (ok ==> fid == r.fids && fcb == r.fcbs)
    {
      ghost var s := View();
      fid := FindFids(p, num);
      fcb := [];
      if |fid| < num { return false, fid, fcb; }
      var last := AcquireMany(num);
      fcb := last;
      if |fcb| < num {
        Rollback(fcb);
        assert View() == Reserve(s, p, num).s;
        return false, fid, fcb;
      }
      BindMany(s, p, fid, fcb);
      return true, fid, fcb;
    }

    /** The loop that finds distinct fids. */
    method FindFids(p: Pid, num: nat) returns (fid: seq<nat>)
      requires p < FIDT.Length0
      ensures fid == FreeFids(Row(p), 0, num)
    {
      hide FreeFids;
      ghost var row, all := Row(p), FreeFids(Row(p), 0, num);
      var f := 0;
      fid := [];
      while |fid| < num
        invariant f <= |row| && |fid| <= num
        invariant all == fid + FreeFids(row, f, num - |fid|)
        decreases num - |fid|
      {
        while f < FIDT.Length1 && FIDT[p, f].Some?
          invariant f <= |row|
          invariant all == fid + FreeFids(row, f, num - |fid|)
        {
          FidTaken(row, f, num - |fid|);
          f := f + 1;
        }
        if f == FIDT.Length1 { break; }
        FidFound(row, f, num - |fid|, fid);
        fid := fid + [f];
        f := f + 1;
      }
      NoMoreFids(row, f, num - |fid|, fid);
    }

    /** The loop that allocates FCBs until there are num of them or no more. */
    method AcquireMany(num: nat) returns (fcb: seq<Fcb>)
      requires Shape(View())
      modifies this`freelist, refcount
      ensures |fcb| == (if |old(freelist)| < num then |old(freelist)| else num) && fcb == old(freelist)[..|fcb|]
      ensures View() == old(View()).(free := old(freelist)[|fcb|..], refcount := refcount[..])
      ensures Zeroed(refcount[..], old(refcount[..]), fcb)
    {
      ghost var s := View();
      assert forall k | 0 <= k < |s.free| :: s.free[k] < |s.refcount|;
      hide Shape, Zeroed;
      fcb := [];
      assert Zeroed(refcount[..], s.refcount, fcb) by { NoneZeroed(s.refcount); }
      assert s.free[0..] == s.free;
      while |fcb| < num
        invariant |fcb| <= |s.free| && |fcb| <= num && fcb == s.free[..|fcb|]
        invariant View() == s.(free := s.free[|fcb|..], refcount := refcount[..])
        invariant Zeroed(refcount[..], s.refcount, fcb)
        decreases num - |fcb|
      {
        ghost var n, counts := |fcb|, refcount[..];
        var f := AcquireFCB();
        if f.None? { break; }
        fcb := fcb + [f.value];
        ZeroedMore(counts, s.refcount, s.free[..n], s.free[n]);
        assert s.free[..n + 1] == s.free[..n] + [s.free[n]] && s.free[n..][1..] == s.free[n + 1..];
      }
    }

    /** Giving back what was acquired, last first. */
    method Rollback(fcb: seq<Fcb>)
      requires freelist == []
      modifies this`freelist
      ensures View() == old(View()).(free := Reversed(fcb))
    {
      var i := |fcb|;
      while i > 0
        invariant 0 <= i <= |fcb|
        invariant View() == old(View()).(free := Reversed(fcb)[..|fcb| - i])
      {
        ReleaseFCB(fcb[i - 1]);
        i := i - 1;
      }
    }

    /** The last loop: the slots and the first references. */
    method BindMany(ghost s: State, p: Pid, fid: seq<nat>, fcb: seq<Fcb>)
      requires p < FIDT.Length0 && Inv(s) && CanBind(s, p, fid) && fcb == s.free[..|fid|]
      requires View() == s.(free := s.free[|fid|..], refcount := refcount[..]) && refcount.Length == |s.refcount|
      requires Zeroed(refcount[..], s.refcount, fcb)
      modifies FIDT, refcount, this`held, this`stream
      ensures View() == BindAll(s, p, fid, |fid|)
    {
      assert Distinct(s.free) && Zeroed(refcount[..], s.refcount, fcb[0..]) by { assert fcb[0..] == fcb; }
      hide Inv, Bind, Distinct, Zeroed;
      for i := 0 to |fid|
        invariant View() == BindAll(s, p, fid, i).(free := s.free[|fid|..], refcount := refcount[..])
        invariant refcount.Length == |s.refcount|
        invariant Zeroed(refcount[..], BindAll(s, p, fid, i).refcount, fcb[i..])
      {
        ghost var v := BindAll(s, p, fid, i);
        NextFcb(s.free, fcb, i);
        ZeroedNext(refcount[..], v.refcount, fcb[i], fcb[i + 1..]);
        BindOne(v, p, fid[i], fcb[i]);
      }
    }

    /** One round of it. */
    method BindOne(ghost v: State, p: Pid, fid: nat, fcb: Fcb)
      requires Shape(v) && p < FIDT.Length0 && fid < FIDT.Length1 && v.free != [] && v.free[0] == fcb
      requires View() == v.(free := freelist, refcount := refcount[..]) && |v.refcount| == refcount.Length && refcount[fcb] == 0
      modifies FIDT, refcount, this`held, this`stream
      ensures View() == Bind(v, p, fid).(free := freelist, refcount := refcount[..])
      ensures refcount[..] == old(refcount[..])[fcb := 1] && |v.fidt| == FIDT.Length0 && |v.fidt[p]| == FIDT.Length1
      ensures Bind(v, p, fid).refcount == v.refcount[fcb := 1]
    {
      SetFid(p, fid, Some(fcb));
      FCBIncref(fcb);
      held := held - multiset{fcb};
      stream := stream[fcb := None];
    }

    /** FCB_unreserve, on fids that name the FCBs to be given back, as its assert demands. */
    method FCBUnreserve(p: Pid, fid: seq<nat>, fcb: seq<Fcb>)
      requires p < FIDT.Length0 && |fid| == |fcb| && (forall k | 0 <= k < |fid| :: fid[k] < FIDT.Length1) && Distinct(fid)
      requires forall k | 0 <= k < |fid| :: Row(p)[fid[k]] == Some(fcb[k])
      modifies FIDT, this`freelist
      ensures View() == UnreserveUpTo(old(View()), p, fid, fcb, |fid|)
      ensures forall k | 0 <= k < |fid| :: Row(p)[fid[k]].None?
    {
      for i := 0 to |fid|
        invariant View() == UnreserveUpTo(old(View()), p, fid, fcb, i)
        invariant forall k | 0 <= k < |fid| :: Row(p)[fid[k]] == if k < i then None else Some(fcb[k])
      {
        assert FIDT[p, fid[i]] == Row(p)[fid[i]] == Some(fcb[i]);
        ghost var row := Row(p);
        SetFid(p, fid[i], None);
        assert Row(p) == Table()[p] == row[fid[i] := None];
        ReleaseFCB(fcb[i]);
      }
    }

    /** `deviceOk` is whether device_open accepts. */
    method OpenStream(p: Pid, deviceOk: bool) returns (fid: int)
      requires p < FIDT.Length0 && Inv(View())
      modifies FIDT, refcount, this`freelist, this`held, this`stream, this`streams
      ensures View() == Streams.OpenStream(old(View()), p, deviceOk).s && fid == Streams.OpenStream(old(View()), p, deviceOk).fid
      ensures StreamEffects.OpenDoes(old(View()), p, deviceOk, View(), fid)
    {
      hide StreamEffects.OpenDoes;
      StreamEffects.OpenEffect(View(), p, deviceOk);
      ghost var s := View();
      var ok, fids, fcbs := FCBReserve(p, 1);
      if !ok { return NOFILE; }
      ReserveGives(s, p, 1);
      if deviceOk {
        stream, streams := stream[fcbs[0] := Some(|streams|)], streams + [Stream(fcbs[0], 0)];
        return fids[0];
      }
      assert Row(p) == View().fidt[p];
      FCBUnreserve(p, fids, fcbs);
      return NOFILE;
    }
  }

  /** The counts are those of the specification, but that the FCBs not yet bound have 0. */
  ghost predicate Zeroed(now: seq<int>, counts: seq<int>, unbound: seq<Fcb>) {
    |now| == |counts| && forall g | 0 <= g < |now| :: now[g] == if g in unbound then 0 else counts[g]
  }

  lemma NoneZeroed(counts: seq<int>)
    ensures Zeroed(counts, counts, [])
  {
  }

  lemma ZeroedMore(now: seq<int>, counts: seq<int>, zeroed: seq<Fcb>, f: Fcb)
    requires Zeroed(now, counts, zeroed) && f < |now|
    ensures Zeroed(now[f := 0], counts, zeroed + [f])
  {
  }

  lemma ZeroedNext(now: seq<int>, counts: seq<int>, f: Fcb, rest: seq<Fcb>)
    requires Zeroed(now, counts, [f] + rest) && f < |now| && f !in rest
    ensures now[f] == 0 && Zeroed(now[f := 1], counts[f := 1], rest)
  {
    forall g | 0 <= g < |now| ensures now[f := 1][g] == if g in rest then 0 else counts[f := 1][g] {
      assert g in [f] + rest <==> g == f || g in rest;
    }
    assert f in [f] + rest;
  }

  lemma NextFcb(free: seq<Fcb>, fcb: seq<Fcb>, i: nat)
    requires Distinct(free) && |fcb| <= |free| && fcb == free[..|fcb|] && i < |fcb|
    ensures fcb[i] == free[i] && fcb[i..] == [fcb[i]] + fcb[i + 1..] && fcb[i] !in fcb[i + 1..]
  {
  }

  lemma FidTaken(row: seq<Option<Fcb>>, f: nat, num: nat)
    requires f < |row| && row[f].Some?
    ensures FreeFids(row, f, num) == FreeFids(row, f + 1, num)
  {
  }

  lemma FidFound(row: seq<Option<Fcb>>, f: nat, num: nat, found: seq<nat>)
    requires f < |row| && row[f].None? && num > 0
    ensures found + FreeFids(row, f, num) == found + [f] + FreeFids(row, f + 1, num - 1)
  {
  }

  lemma NoMoreFids(row: seq<Option<Fcb>>, f: nat, num: nat, found: seq<nat>)
    requires f <= |row| && (f == |row| || num == 0)
    ensures found + FreeFids(row, f, num) == found
  {
  }
}
