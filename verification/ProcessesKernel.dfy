// kernel_proc.c in place: the process table's fields as arrays, the free list threaded through
// `parent`, and the FIDTs of `StreamsKernel.Files`; its functions, up to where they go to sleep,
// are proved to be the operations of `Processes`.

module ProcessesKernel {
  import opened Lists
  import opened Processes
  import opened ProcessEffects
  import Streams
  import StreamsKernel

  class ProcessTable {
    const pstate: array<PState>
    const parent: array<int>
    const children: array<seq<Pid>>
    const exited: array<seq<Pid>>
    const exitval: array<int>
    const mainThread: array<bool>
    const wait: array<Wait>
    const ft: StreamsKernel.Files
    var pcbFreelist: int
    var processCount: int
    ghost var free: seq<Pid>
    ghost var birth: seq<nat>
    ghost var life: seq<Life>

    ghost function Repr(): set<object> {
      {this, pstate, parent, children, exited, exitval, mainThread, wait, ft, ft.FIDT, ft.refcount}
    }

    /** The arrays are as long as the process table and do not overlap. */
    ghost predicate Valid() {
      && parent.Length == pstate.Length && children.Length == pstate.Length && exited.Length == pstate.Length
      && exitval.Length == pstate.Length && mainThread.Length == pstate.Length && wait.Length == pstate.Length
      && ft.FIDT.Length0 == pstate.Length
      && parent != exitval && children != exited && ft.refcount != parent && ft.refcount != exitval
    }

    ghost function View(): State
      reads Repr()
    {
      State(pstate[..], parent[..], children[..], exited[..], exitval[..], mainThread[..],
            pcbFreelist, processCount, wait[..], ft.View(), free, birth, life)
    }

    constructor Init(n: nat, files: nat, width: nat)
      ensures Valid() && View() == Table(n, files, width)
      ensures fresh(Repr())
    {
      hide Table, Streams.Initial, Streams.Inv, Streams.Connected;
      pstate := new PState[n];
      parent := new int[n];
      children := new seq<Pid>[n];
      exited := new seq<Pid>[n];
      exitval := new int[n];
      mainThread := new bool[n];
      wait := new Wait[n](_ => Running);
      ft := new StreamsKernel.Files.Init(n, files, width);
      pcbFreelist, processCount := NOPROC, 0;
      free, birth, life := Table(n, files, width).free, Table(n, files, width).birth, [];
      new;
      InitializeProcesses(files, width);
    }

    /** initialize_processes up to its Exec. */
    method InitializeProcesses(ghost files: nat, ghost width: nat)
      requires Valid() && ft.View() == Streams.Initial(pstate.Length, files, width) && processCount == 0 && life == []
      requires free == Table(pstate.Length, files, width).free && birth == Table(pstate.Length, files, width).birth
      requires forall p | 0 <= p < wait.Length :: wait[p] == Running
      modifies pstate, parent, children, exited, exitval, mainThread, this`pcbFreelist
      ensures View() == Table(pstate.Length, files, width)
    {
      hide Table, Streams.Initial;
      InitializePCBs();
      BuildFreeList();
      IsTable(View(), pstate.Length, files, width);
    }

    /** Exec of the idle process, and then of the boot task. */
    method Boot(ghost n: nat, ghost files: nat, ghost width: nat) returns (idle: int, init: int)
      requires n >= 2 && Valid() && View() == Table(n, files, width)
      modifies Repr()
      ensures View() == Booted(n, files, width) && Inv(View()) && idle == 0 && init == 1
    {
      hide Table, Fork, Sized, Inv;
      TableForks(n, files, width);
      idle := SysExec(0, false);
      init := SysExec(0, true);
      BootedInv(n, files, width);
    }

    method InitializePCBs()
      requires Valid()
      modifies pstate, children, exited, exitval, mainThread
      ensures forall q | 0 <= q < pstate.Length :: pstate[q] == FREE && children[q] == [] && exited[q] == [] && exitval[q] == 0 && !mainThread[q]
    {
      for p := 0 to pstate.Length
        invariant forall q | 0 <= q < p :: pstate[q] == FREE && children[q] == [] && exited[q] == [] && exitval[q] == 0 && !mainThread[q]
      {
        pstate[p], children[p], exited[p], exitval[p], mainThread[p] := FREE, [], [], 0, false;
      }
    }

    /** From the last PCB to the first. */
    method BuildFreeList()
      requires Valid()
      modifies parent, this`pcbFreelist
      ensures pcbFreelist == if pstate.Length == 0 then NOPROC else 0
      ensures forall q | 0 <= q < parent.Length :: parent[q] == if q + 1 < parent.Length then q + 1 else NOPROC
    {
      pcbFreelist := NOPROC;
      var it := pstate.Length;
      while it != 0
        invariant 0 <= it <= pstate.Length && pcbFreelist == if it < pstate.Length then it else NOPROC
        invariant forall q | it <= q < pstate.Length :: parent[q] == if q + 1 < pstate.Length then q + 1 else NOPROC
      {
        it := it - 1;
        parent[it] := pcbFreelist;
        pcbFreelist := it;
      }
    }

    method AcquirePCB() returns (pcb: int)
      requires Valid() && Sized(View()) && (pcbFreelist != NOPROC ==> 0 <= pcbFreelist < pstate.Length)
      modifies pstate, this
      ensures pcb == old(pcbFreelist)
      ensures View() == if pcb == NOPROC then old(View()) else Acquired(old(View()))
    {
      pcb := NOPROC;
      if pcbFreelist != NOPROC {
        pcb := pcbFreelist;
        free, birth, life := if free == [] then [] else free[1..], birth[pcb := |life|], life + [Life(pcb, None, None)];
        pstate[pcb] := ALIVE;
        pcbFreelist := parent[pcbFreelist];
        processCount := processCount + 1;
      }
    }

    method ReleasePCB(pcb: Pid)
      requires Valid() && pcb < pstate.Length
      modifies pstate, parent, this`pcbFreelist, this`processCount
      ensures View() == old(View()).(pstate := old(pstate[..])[pcb := FREE], parent := old(parent[..])[pcb := old(pcbFreelist)],
                                     freelist := pcb, count := old(processCount) - 1)
    {
      pstate[pcb] := FREE;
      parent[pcb] := pcbFreelist;
      pcbFreelist := pcb;
      processCount := processCount - 1;
    }

    /** sys_Exec called by cur; what it needs of the table holds in every reachable state (`ExecIsReady`) and at boot. */
    method SysExec(cur: Pid, hasCall: bool) returns (pid: int)
      requires Valid() && CanExec(View(), cur)
      modifies Repr()
      ensures Exec(old(View()), cur, hasCall) == Outcome(View(), Answered(pid, None))
    {
      hide Streams.Shape, Streams.InheritUpTo;
      pid := AcquirePCB();
      if pid == NOPROC { return; }
      if pid <= 1 {
        parent[pid] := NOPROC;
      } else {
        Attach(cur, pid);
      }
      StartMain(pid, hasCall);
    }

    method StartMain(pid: Pid, hasCall: bool)
      requires Valid() && pid < pstate.Length
      modifies mainThread
      ensures View() == old(View()).(mainThread := if hasCall then old(mainThread[..])[pid := true] else old(mainThread[..]))
    {
      if hasCall {
        mainThread[pid] := true;
      }
    }

    /** The parts of sys_Exec that make the new process a child of the current one. */
    method Attach(cur: Pid, pid: Pid)
      requires Valid() && cur < pstate.Length && pid < pstate.Length && Streams.Shape(ft.View()) && Streams.CanInherit(ft.View(), cur, pid)
      modifies parent, children, ft, ft.FIDT, ft.refcount
      ensures View() == old(View()).(
        parent := old(parent[..])[pid := cur],
        children := old(children[..])[cur := [pid] + old(children[cur])],
        files := Streams.InheritUpTo(old(ft.View()), cur, pid, ft.FIDT.Length1))
    {
      hide Streams.Shape, Streams.InheritUpTo;
      parent[pid] := cur;
      children[cur] := [pid] + children[cur];
      ft.Inherit(cur, pid);
    }

    method CleanupZombie(cur: Pid, child: Pid) returns (status: int)
      requires Valid() && Inv(View()) && CanReap(View(), cur, child)
      modifies pstate, parent, children, exited, this
      ensures View() == Reap(old(View()), cur, child) && status == old(exitval[child])
    {
      status := exitval[child];
      children[cur] := Without(children[cur], child);
      exited[cur] := Without(exited[cur], child);
      life := life[birth[child] := life[birth[child]].(reaped := Some(Reaping(cur, status)))];
      free := [child] + free;
      ReleasePCB(child);
    }

    /** kernel_broadcast(&q->child_exit). */
    method KernelBroadcast(q: Pid)
      requires Valid() && q < wait.Length
      modifies wait
      ensures View() == Broadcast(old(View()), q)
    {
      wait[q] := Woken(wait[q]);
    }

    method SleepOn(cur: Pid, w: Wait)
      requires Valid() && cur < wait.Length
      modifies wait
      ensures View() == SetWait(old(View()), cur, w)
    {
      wait[cur] := w;
    }

    /** The loop of wait_for_specific_child, up to its kernel_wait, and what follows it. */
    method AwaitChild(cur: Pid, child: Pid) returns (ret: Answer)
      requires Valid() && Inv(View()) && cur < pstate.Length && 2 <= child < pstate.Length && parent[child] == cur && pstate[child] != FREE
      modifies pstate, parent, children, exited, wait, this
      ensures Outcome(View(), ret) == Processes.AwaitChild(old(View()), cur, child)
    {
      hide Inv, Reap;
      ghost var s := View();
      if pstate[child] == ALIVE {
        SleepOn(cur, ForChild(child, false));
        return Blocked;
      }
      ZombieIsOnItsParentsList(s, child);
      ExitedCanBeReaped(s, cur, child);
      var status := CleanupZombie(cur, child);
      SleepOn(cur, Running);
      return Answered(child, Some(status));
    }

    /** The loop of wait_for_any_child, up to its kernel_wait, and what follows it. */
    method AwaitAny(cur: Pid, asleep: Wait, after: Wait) returns (ret: Answer)
      requires Valid() && Inv(View()) && cur < pstate.Length
      modifies pstate, parent, children, exited, wait, this
      ensures Outcome(View(), ret) == Processes.AwaitAny(old(View()), cur, asleep, after)
    {
      hide Inv, Reap;
      if exited[cur] == [] {
        SleepOn(cur, asleep);
        return Blocked;
      }
      var child := exited[cur][0];
      ExitedCanBeReaped(View(), cur, child);
      assert pstate[child] == ZOMBIE;
      var status := CleanupZombie(cur, child);
      SleepOn(cur, after);
      return Answered(child, Some(status));
    }

    method SysWaitChild(cur: Pid, cpid: int) returns (ret: Answer)
      requires Valid() && Inv(View()) && Runs(View(), cur)
      modifies pstate, parent, children, exited, wait, this
      ensures Outcome(View(), ret) == Perform(old(View()), DoWaitChild(cur, cpid))
      ensures WaitChildDoes(old(View()), cur, cpid, View(), ret) && (ret == Answered(NOPROC, None) <==> Refused(old(View()), cur, cpid))
    {
      WaitChildEffect(View(), cur, cpid);
      hide Processes.AwaitAny, Processes.AwaitChild, Refused, WaitChildDoes, WakeUpDoes;
      if cpid != NOPROC {
        if cpid < 0 || cpid >= pstate.Length {
          return Answered(NOPROC, None);
        }
        if pstate[cpid] == FREE || parent[cpid] != cur {
          return Answered(NOPROC, None);
        }
        ChildrenAreNotRoots(View(), cur, cpid);
        ret := AwaitChild(cur, cpid);
      } else {
        if children[cur] == [] {
          return Answered(NOPROC, None);
        }
        ret := AwaitAny(cur, ForAny(false), Running);
      }
    }

    /** Back from kernel_wait in one of the two loops. */
    method AfterKernelWait(cur: Pid) returns (ret: Answer)
      requires Valid() && Inv(View()) && cur < pstate.Length && (wait[cur].ForChild? || wait[cur].ForAny?)
      modifies pstate, parent, children, exited, wait, this
      ensures Outcome(View(), ret) == Perform(old(View()), WakeUp(cur))
      ensures WakeUpDoes(old(View()), cur, View(), ret)
    {
      WakeUpEffect(View(), cur);
      hide Processes.AwaitAny, Processes.AwaitChild, Refused, WaitChildDoes, WakeUpDoes;
      Awake(View(), cur);
      if wait[cur].ForChild? {
        ret := AwaitChild(cur, wait[cur].child);
      } else {
        ret := AwaitAny(cur, ForAny(false), Running);
      }
    }

    /** The loop of sys_Exit that moves the children to init, front to front. */
    method Reparent(cur: Pid)
      requires Valid() && 1 < cur < pstate.Length && forall c | c in children[cur] :: c < parent.Length
      modifies parent, children
      ensures View() == old(View()).(
        parent := parent[..],
        children := old(children[..])[1 := Reverse(old(children[cur])) + old(children[1])][cur := []])
      ensures forall c | 0 <= c < parent.Length :: parent[c] == if c in old(children[cur]) then 1 else old(parent[c])
    {
      ghost var was, cs := children[..], children[cur];
      ghost var i := 0;
      Moved0(was, cur);
      while children[cur] != []
        invariant i <= |cs| && children[..] == Moved(was, cur, i)
        invariant forall c | 0 <= c < parent.Length :: parent[c] == if c in cs[..i] then 1 else old(parent[c])
        decreases |cs| - i
      {
        assert children[cur] == children[..][cur] && children[1] == children[..][1];
        MovedNext(was, cur, i);
        assert cs[i] in cs && cs[..i + 1] == cs[..i] + [cs[i]];
        ReparentFirst(cur);
        i := i + 1;
      }
      assert children[cur] == children[..][cur] && cs[..i] == cs;
    }

    /** One child from the front of the list to the front of init's. */
    method ReparentFirst(cur: Pid)
      requires Valid() && 1 < cur < pstate.Length && children[cur] != [] && children[cur][0] < parent.Length
      modifies parent, children
      ensures children[..] == old(children[..])[1 := [old(children[cur])[0]] + old(children[1])][cur := old(children[cur])[1..]]
      ensures parent[..] == old(parent[..])[old(children[cur])[0] := 1]
    {
      var child := children[cur][0];
      children[cur] := children[cur][1..];
      parent[child] := 1;
      children[1] := [child] + children[1];
    }

    /** Reparenting, and handing the exited children over. */
    method AdoptAll(cur: Pid)
      requires Valid() && Sized(View()) && 1 < cur < pstate.Length && forall c | c in children[cur] :: c < parent.Length
      modifies parent, children, exited, wait
      ensures View() == Adopt(old(View()), cur)
    {
      hide Streams.Shape;
      ghost var s := View();
      Reparent(cur);
      assert parent[..] == Adopt(s, cur).parent;
      if exited[cur] != [] {
        exited[1], exited[cur] := exited[1] + exited[cur], [];
        KernelBroadcast(1);
      }
    }

    /** From "put me into my parent's exited list" to kernel_sleep. */
    method BecomeZombie(cur: Pid, val: int)
      requires Valid() && Sized(View()) && cur < pstate.Length && -1 <= parent[cur] < pstate.Length && birth[cur] < |life|
      modifies exited, wait, mainThread, pstate, exitval, this`life
      ensures View() == Bury(old(View()), cur, val)
    {
      hide Streams.Shape;
      TellParent(cur);
      MarkZombie(cur, val);
    }

    method MarkZombie(cur: Pid, val: int)
      requires Valid() && cur < pstate.Length && |birth| == pstate.Length && birth[cur] < |life|
      modifies wait, mainThread, pstate, exitval, this`life
      ensures View() == old(View()).(
        mainThread := old(mainThread[..])[cur := false],
        pstate := old(pstate[..])[cur := ZOMBIE],
        exitval := old(exitval[..])[cur := val],
        wait := old(wait[..])[cur := Running],
        life := old(life)[birth[cur] := old(life)[birth[cur]].(exited := Some(val))])
    {
      mainThread[cur] := false;
      pstate[cur] := ZOMBIE;
      exitval[cur] := val;
      wait[cur] := Running;
      life := life[birth[cur] := life[birth[cur]].(exited := Some(val))];
    }

    method TellParent(cur: Pid)
      requires Valid() && cur < pstate.Length && -1 <= parent[cur] < pstate.Length
      modifies exited, wait
      ensures View() == if parent[cur] == NOPROC then old(View())
                        else Broadcast(old(View()).(exited := old(exited[..])[parent[cur] := [cur] + old(exited[parent[cur]])]), parent[cur])
    {
      var q := parent[cur];
      if q != NOPROC {
        exited[q] := [cur] + exited[q];
        KernelBroadcast(q);
      }
    }

    method FinishExit(cur: Pid, val: int)
      requires Valid() && Inv(View()) && 1 <= cur < pstate.Length && pstate[cur] == ALIVE && (cur == 1 ==> children[1] == [])
      requires wait[cur] == Running || cur == 1
      modifies Repr()
      ensures View() == Processes.FinishExit(old(View()), cur, val)
    {
      hide Inv, CloseFiles, Adopt, Bury;
      ghost var s := View();
      FinishExitKeeps(s, cur, val);
      CloseAllFiles(cur);
      CloseFilesKeeps(s, cur);
      CloseFilesFrame(s, cur);
      if cur != 1 {
        ChildrenInRange(View(), cur);
        AdoptAll(cur);
      } else {
        CloseFilesFrame(s, 1);
        ChildlessInit(View());
      }
      BecomeZombie(cur, val);
    }

    method CloseAllFiles(cur: Pid)
      requires Valid() && Inv(View()) && cur < pstate.Length
      modifies ft, ft.FIDT, ft.refcount
      ensures View() == CloseFiles(old(View()), cur)
    {
      hide Forest, FreeOk, Ages, Waits, Streams.Inv, Streams.Connected, Streams.CloseUpTo;
      assert Streams.Inv(ft.View());
      ft.CloseAll(cur);
    }

    method SysExit(cur: Pid, val: int)
      requires Valid() && Inv(View()) && Runs(View(), cur)
      modifies Repr()
      ensures View() == Apply(old(View()), DoExit(cur, val))
    {
      hide Processes.FinishExit;
      RunsFacts(View(), cur);
      if cur == 1 {
        SleepOn(1, Leaving(val));
      } else {
        FinishExit(cur, val);
      }
    }

    /** One round of while(sys_WaitChild(NOPROC,NULL)!=NOPROC), or the rest of sys_Exit when it ends. */
    method InitLeavesRound() returns (ret: Answer)
      requires Valid() && Inv(View()) && 1 < wait.Length && (wait[1].Leaving? || wait[1].LeavingWaits?)
      modifies Repr()
      ensures Outcome(View(), ret) == Perform(old(View()), InitLeaves)
    {
      hide Processes.FinishExit, Processes.AwaitAny;
      Awake(View(), 1);
      var val := wait[1].val;
      if wait[1].Leaving? && children[1] == [] {
        FinishExit(1, val);
        ret := Blocked;
      } else {
        ret := AwaitAny(1, LeavingWaits(val, false), Leaving(val));
      }
    }
  }

  /** The children lists when i children of cur have been moved to init, front to front. */
  ghost function Moved(was: seq<seq<Pid>>, cur: Pid, i: nat): (r: seq<seq<Pid>>)
    requires 1 < cur < |was| && i <= |was[cur]|
    ensures |r| == |was| && r[cur] == was[cur][i..] && r[1] == Reverse(was[cur][..i]) + was[1]
  {
    was[1 := Reverse(was[cur][..i]) + was[1]][cur := was[cur][i..]]
  }

  lemma Moved0(was: seq<seq<Pid>>, cur: Pid)
    requires 1 < cur < |was|
    ensures Moved(was, cur, 0) == was
  {
    assert was[cur][0..] == was[cur] && Reverse(was[cur][..0]) + was[1] == was[1];
  }

  lemma MovedNext(was: seq<seq<Pid>>, cur: Pid, i: nat)
    requires 1 < cur < |was| && i < |was[cur]|
    ensures var m := Moved(was, cur, i);
            m[cur] != [] && m[cur][0] == was[cur][i] && m[1 := [m[cur][0]] + m[1]][cur := m[cur][1..]] == Moved(was, cur, i + 1)
  {
    var cs := was[cur];
    assert cs[..i + 1] == cs[..i] + [cs[i]] && cs[i..][1..] == cs[i + 1..];
    ReverseSnoc(cs[..i], cs[i]);
    assert [cs[i]] + (Reverse(cs[..i]) + was[1]) == [cs[i]] + Reverse(cs[..i]) + was[1];
  }
}
