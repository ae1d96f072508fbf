// The process table (kernel_proc.c). A step is what a process does between taking the kernel lock
// and giving it up, which inside sys_Exec, sys_WaitChild and sys_Exit happens only in kernel_wait
// and kernel_sleep. A process has one thread. A child_exit condition variable has at most one
// waiter, the process itself, so a broadcast marks that process as signalled.

module Processes {
  import opened Lists
  import Streams

  type Pid = nat

  const NOPROC: int := -1

  datatype PState = FREE | ALIVE | ZOMBIE

  /** Where a process stands: out of the kernel or about to enter it, or in kernel_wait. */
  datatype Wait =
    | Running
    | ForChild(child: Pid, signalled: bool)
    | ForAny(signalled: bool)
    | Leaving(val: int)                          // pid 1 in the loop of sys_Exit
    | LeavingWaits(val: int, signalled: bool)

  datatype Reaping = Reaping(reaper: Pid, status: int)

  /** History of one incarnation of a pid: the value passed to Exit, and the WaitChild that returned it. */
  datatype Life = Life(pid: Pid, exited: Option<int>, reaped: Option<Reaping>)

  /**
   * The fields of PT, one sequence a field; `parent` doubles as the link of the free list, as in the
   * source. `files` holds the FIDTs. `free`, `birth` and `life` are history: the free list as a
   * sequence, and the incarnations by order of birth.
   */
  datatype State = State(
    pstate: seq<PState>,
    parent: seq<int>,
    children: seq<seq<Pid>>,
    exited: seq<seq<Pid>>,
    exitval: seq<int>,
    mainThread: seq<bool>,
    freelist: int,
    count: int,
    wait: seq<Wait>,
    files: Streams.State,
    free: seq<Pid>,
    birth: seq<nat>,
    life: seq<Life>)

  predicate Sized(s: State) {
    var n := |s.pstate|;
    && |s.parent| == n && |s.children| == n && |s.exited| == n && |s.exitval| == n && |s.mainThread| == n
    && |s.wait| == n && |s.birth| == n && |s.files.fidt| == n
    && Streams.Shape(s.files)
    && forall p, q | 0 <= p < n && 0 <= q < n :: |s.files.fidt[p]| == |s.files.fidt[q]|
  }

  // -------------------------------------------------------------- operations

  function Reverse(q: seq<Pid>): (r: seq<Pid>)
    ensures |r| == |q|
    ensures forall x :: x in r <==> x in q
    ensures Distinct(q) ==> Distinct(r)
  {
    if q == [] then []
    else
      assert Distinct(q) ==> Distinct(q[1..]) && q[0] !in q[1..];
      Reverse(q[1..]) + [q[0]]
  }

  /** acquire_PCB, with the birth of an incarnation. */
  function Acquired(s: State): State
    requires Sized(s) && 0 <= s.freelist < |s.pstate|
  {
    var c := s.freelist;
    s.(
      pstate := s.pstate[c := ALIVE],
      freelist := s.parent[c],
      count := s.count + 1,
      free := if s.free == [] then [] else s.free[1..],
      birth := s.birth[c := |s.life|],
      life := s.life + [Life(c, None, None)])
  }

  /** sys_Exec by p, in the new PCB c. */
  function Fork(s: State, p: Pid, hasCall: bool): State
    requires Sized(s) && 0 <= s.freelist < |s.pstate| && p < |s.pstate| && (s.freelist > 1 ==> s.freelist != p)
  {
    var c := s.freelist;
    var s1 := Acquired(s).(mainThread := if hasCall then s.mainThread[c := true] else s.mainThread);
    if c <= 1 then s1.(parent := s.parent[c := NOPROC])
    else
      s1.(
        parent := s.parent[c := p],
        children := s.children[p := [c] + s.children[p]],
        files := Streams.InheritUpTo(s.files, p, c, |s.files.fidt[p]|))
  }

  /** What a system call gives back, unless it went to sleep in kernel_wait. */
  datatype Answer = Blocked | Answered(pid: int, status: Option<int>)

  datatype Outcome = Outcome(s: State, ret: Answer)

  function Exec(s: State, p: Pid, hasCall: bool): Outcome
    requires Sized(s) && p < |s.pstate| && (s.freelist != NOPROC ==> 0 <= s.freelist < |s.pstate|)
    requires s.freelist > 1 ==> s.freelist != p
  {
    if s.freelist == NOPROC then Outcome(s, Answered(NOPROC, None))
    else Outcome(Fork(s, p, hasCall), Answered(s.freelist, None))
  }

  /** cleanup_zombie by p on its child c. */
  function Reap(s: State, p: Pid, c: Pid): State
    requires Sized(s) && p < |s.pstate| && c < |s.pstate| && s.birth[c] < |s.life|
  {
    var b := s.birth[c];
    s.(
      children := s.children[p := Without(s.children[p], c)],
      exited := s.exited[p := Without(s.exited[p], c)],
      pstate := s.pstate[c := FREE],
      parent := s.parent[c := s.freelist],
      freelist := c,
      count := s.count - 1,
      free := [c] + s.free,
      life := s.life[b := s.life[b].(reaped := Some(Reaping(p, s.exitval[c])))])
  }

  function SetWait(s: State, p: Pid, w: Wait): State
    requires p < |s.wait|
  {
    s.(wait := s.wait[p := w])
  }

  /** kernel_broadcast(&q->child_exit). */
  function Woken(w: Wait): Wait {
    if w.ForChild? || w.ForAny? || w.LeavingWaits? then w.(signalled := true) else w
  }

  function Broadcast(s: State, q: Pid): State
    requires q < |s.wait|
  {
    SetWait(s, q, Woken(s.wait[q]))
  }

  /** sys_Exit first drops the open files, */
  function CloseFiles(s: State, p: Pid): State
    requires Sized(s) && p < |s.pstate|
  {
    s.(files := Streams.CloseUpTo(s.files, p, |s.files.fidt[p]|))
  }

  /** then gives its children and its exited children to init, */
  function Adopt(s: State, p: Pid): State
    requires Sized(s) && p < |s.pstate| && 1 < |s.pstate|
  {
    if p == 1 then s else
    var cs := s.children[p];
    var s1 := s.(
      parent := seq(|s.parent|, c requires 0 <= c < |s.parent| => if c in cs then 1 else s.parent[c]),
      children := s.children[1 := Reverse(cs) + s.children[1]][p := []]);
    if s.exited[p] == [] then s1
    else Broadcast(s1.(exited := s.exited[1 := s.exited[1] + s.exited[p]][p := []]), 1)
  }

  /** and then shows its parent a zombie. */
  function Bury(s: State, p: Pid, val: int): State
    requires Sized(s) && p < |s.pstate| && -1 <= s.parent[p] < |s.pstate| && s.birth[p] < |s.life|
  {
    var q := s.parent[p];
    var b := s.birth[p];
    var s1 := if q == NOPROC then s else Broadcast(s.(exited := s.exited[q := [p] + s.exited[q]]), q);
    s1.(
      mainThread := s.mainThread[p := false],
      pstate := s.pstate[p := ZOMBIE],
      exitval := s.exitval[p := val],
      wait := s1.wait[p := Running],
      life := s.life[b := s.life[b].(exited := Some(val))])
  }

  // ----------------------------------------------------------- the invariant

  /** A process other than 0 and 1 is on its living parent's lists as its state says. */
  predicate NodeOk(s: State, c: Pid)
    requires Sized(s) && c < |s.pstate|
  {
    c >= 2 && s.pstate[c] != FREE ==>
      var q := s.parent[c];
      && 1 <= q < |s.pstate| && s.pstate[q] == ALIVE
      && c in s.children[q]
      && (c in s.exited[q] <==> s.pstate[c] == ZOMBIE)
  }

  /** Nobody else is on the lists, nobody twice, and only living processes have any. */
  ghost predicate ListsOk(s: State, q: Pid)
    requires Sized(s) && q < |s.pstate|
  {
    && Distinct(s.children[q]) && Distinct(s.exited[q])
    && (forall c | c in s.children[q] :: 2 <= c < |s.pstate| && s.pstate[c] != FREE && s.parent[c] == q)
    && (forall c | c in s.exited[q] :: 2 <= c < |s.pstate| && s.pstate[c] == ZOMBIE && s.parent[c] == q)
    && (s.pstate[q] != ALIVE ==> s.children[q] == [] && s.exited[q] == [])
  }

  ghost predicate Forest(s: State)
    requires Sized(s)
  {
    && 1 < |s.pstate|
    && s.parent[0] == NOPROC && s.parent[1] == NOPROC
    && s.pstate[0] == ALIVE && s.children[0] == [] && s.exited[0] == [] && !s.mainThread[0]
    && s.pstate[1] != FREE
    && (forall c | 0 <= c < |s.pstate| :: NodeOk(s, c))
    && (forall q | 0 <= q < |s.pstate| :: ListsOk(s, q))
  }

  function LinkTo(q: seq<Pid>, k: nat): int {
    if k < |q| then q[k] else NOPROC
  }

  /** pcb_freelist links exactly the FREE PCBs, and process_count counts the others. */
  ghost predicate FreeOk(s: State)
    requires Sized(s)
  {
    && s.count + |s.free| == |s.pstate|
    && Distinct(s.free)
    && s.freelist == LinkTo(s.free, 0)
    && (forall k | 0 <= k < |s.free| :: s.free[k] < |s.pstate| && s.parent[s.free[k]] == LinkTo(s.free, k + 1))
    && (forall c | 0 <= c < |s.pstate| :: c in s.free <==> s.pstate[c] == FREE)
  }

  /** A process asleep and not signalled has nothing to wake up for. */
  predicate WaitOk(s: State, p: Pid)
    requires Sized(s) && p < |s.pstate|
  {
    && (s.pstate[p] != ALIVE ==> !s.mainThread[p] && s.wait[p] == Running)
    && match s.wait[p]
       case Running => true
       case ForChild(c, sig) => 2 <= c < |s.pstate| && s.pstate[c] != FREE && s.parent[c] == p && (!sig ==> s.pstate[c] == ALIVE)
       case ForAny(sig) => s.children[p] != [] && (!sig ==> s.exited[p] == [])
       case Leaving(_) => p == 1
       case LeavingWaits(_, sig) => p == 1 && s.children[p] != [] && (!sig ==> s.exited[p] == [])
  }

  /** Each incarnation in the table is unreaped, has exited if and only if it is a zombie, and is younger than its parent. */
  predicate AgeOk(s: State, c: Pid)
    requires Sized(s) && c < |s.pstate|
  {
    s.pstate[c] != FREE ==>
      var b := s.birth[c];
      && b < |s.life| && s.life[b].pid == c && s.life[b].reaped.None?
      && s.life[b].exited == (if s.pstate[c] == ZOMBIE then Some(s.exitval[c]) else None)
      && (c == 1 ==> b == 1) && (c >= 2 ==> b >= 2)
      && (c >= 2 && 0 <= s.parent[c] < |s.pstate| ==> s.birth[s.parent[c]] < b)
  }

  /** An incarnation has been reaped, with the value it passed to Exit, or is still in the table. */
  predicate LifeOk(s: State, b: nat)
    requires Sized(s) && b < |s.life|
  {
    var x := s.life[b];
    && x.pid < |s.pstate|
    && (x.reaped.None? <==> s.pstate[x.pid] != FREE && s.birth[x.pid] == b)
    && (x.reaped.Some? ==> x.exited == Some(x.reaped.value.status))
  }

  ghost predicate Ages(s: State)
    requires Sized(s)
  {
    && (forall c | 0 <= c < |s.pstate| :: AgeOk(s, c))
    && (forall b | 0 <= b < |s.life| :: LifeOk(s, b))
  }

  ghost predicate Waits(s: State)
    requires Sized(s)
  {
    forall p | 0 <= p < |s.pstate| :: WaitOk(s, p)
  }

  /** Only living processes have open files. */
  ghost predicate Filed(s: State)
    requires Sized(s)
  {
    && Streams.Inv(s.files) && Streams.Connected(s.files)
    && forall p, i | 0 <= p < |s.pstate| && s.pstate[p] != ALIVE && 0 <= i < |s.files.fidt[p]| :: s.files.fidt[p][i].None?
  }

  ghost predicate Inv(s: State) {
    Sized(s) && Forest(s) && FreeOk(s) && Ages(s) && Waits(s) && Filed(s)
  }

  // ---------------------------------------------------- Exec keeps the invariant

  lemma ForkSized(s: State, p: Pid, hasCall: bool)
    requires Sized(s) && 2 <= s.freelist < |s.pstate| && p < |s.pstate| && s.freelist != p
    ensures Sized(Fork(s, p, hasCall))
  {
  }

  lemma ForkForest(s: State, p: Pid, hasCall: bool)
    requires Sized(s) && Forest(s) && 2 <= s.freelist < |s.pstate| && 1 <= p < |s.pstate|
    requires s.pstate[s.freelist] == FREE && s.pstate[p] == ALIVE
    ensures Sized(Fork(s, p, hasCall)) && Forest(Fork(s, p, hasCall))
  {
    ForkSized(s, p, hasCall);
    var r := Fork(s, p, hasCall);
    var c := s.freelist;
    assert ListsOk(s, c) && ListsOk(s, p);
    forall x | 0 <= x < |s.pstate| ensures NodeOk(r, x) {
      assert NodeOk(s, x);
    }
    forall q | 0 <= q < |s.pstate| ensures ListsOk(r, q) {
      assert ListsOk(s, q);
    }
  }

  lemma ForkFree(s: State, p: Pid, hasCall: bool)
    requires Sized(s) && FreeOk(s) && s.freelist >= 2 && p < |s.pstate| && s.freelist != p
    ensures Sized(Fork(s, p, hasCall)) && FreeOk(Fork(s, p, hasCall))
  {
    hide Streams.Shape;
    assert s.freelist in s.free;
    ForkSized(s, p, hasCall);
    var r := Fork(s, p, hasCall);
    TailWithoutHead(s.free);
    ForkLinks(s, p, hasCall);
  }

  lemma ForkLinks(s: State, p: Pid, hasCall: bool)
    requires Sized(s) && FreeOk(s) && s.freelist >= 2 && p < |s.pstate| && s.freelist != p
    ensures var r := Fork(s, p, hasCall);
            |r.free| + 1 == |s.free| && r.freelist == LinkTo(r.free, 0) && |r.pstate| == |s.pstate| && |r.parent| == |r.pstate|
            && forall k | 0 <= k < |r.free| :: r.free[k] < |r.pstate| && r.parent[r.free[k]] == LinkTo(r.free, k + 1)
  {
    hide Streams.Shape, Streams.InheritUpTo;
    assert s.freelist in s.free;
    var r := Fork(s, p, hasCall);
    forall k | 0 <= k < |r.free|
      ensures r.free[k] < |r.pstate| && r.parent[r.free[k]] == LinkTo(r.free, k + 1)
    {
      var x := s.free[k + 1];
      assert r.free[k] == x != s.free[0];
      assert s.parent[x] == LinkTo(s.free, k + 2);
    }
  }

  lemma ForkAges(s: State, p: Pid, hasCall: bool)
    requires Sized(s) && Ages(s) && 2 <= s.freelist < |s.pstate| && p < |s.pstate| && s.freelist != p
    requires Forest(s) && s.pstate[s.freelist] == FREE && s.pstate[p] == ALIVE && |s.life| >= 2
    ensures Sized(Fork(s, p, hasCall)) && Ages(Fork(s, p, hasCall))
  {
    ForkSized(s, p, hasCall);
    var r := Fork(s, p, hasCall);
    assert AgeOk(s, p);
    forall x | 0 <= x < |s.pstate| ensures AgeOk(r, x) {
      assert AgeOk(s, x) && NodeOk(s, x);
    }
    forall b | 0 <= b < |r.life| ensures LifeOk(r, b) {
      if b < |s.life| { assert LifeOk(s, b); }
    }
  }

  lemma ForkWaits(s: State, p: Pid, hasCall: bool)
    requires Sized(s) && Waits(s) && 2 <= s.freelist < |s.pstate| && p < |s.pstate| && s.freelist != p
    requires s.pstate[s.freelist] == FREE && s.pstate[p] == ALIVE
    ensures Sized(Fork(s, p, hasCall)) && Waits(Fork(s, p, hasCall))
  {
    ForkSized(s, p, hasCall);
    var r := Fork(s, p, hasCall);
    forall x | 0 <= x < |s.pstate| ensures WaitOk(r, x) {
      assert WaitOk(s, x);
    }
    assert WaitOk(s, s.freelist);
  }

  lemma ForkFiled(s: State, p: Pid, hasCall: bool)
    requires Sized(s) && Filed(s) && 2 <= s.freelist < |s.pstate| && p < |s.pstate| && s.freelist != p
    requires s.pstate[s.freelist] == FREE
    ensures Sized(Fork(s, p, hasCall)) && Filed(Fork(s, p, hasCall))
  {
    hide Streams.Inv, Streams.Connected;
    ForkSized(s, p, hasCall);
    Streams.InheritKeeps(s.files, p, s.freelist, |s.files.fidt[p]|);
  }

  // ------------------------------------------------ reaping keeps the invariant

  /** cleanup_zombie, after which p's thread goes on as w says. */
  function ReapAs(s: State, p: Pid, c: Pid, w: Wait): State
    requires Sized(s) && p < |s.pstate| && c < |s.pstate| && s.birth[c] < |s.life|
  {
    SetWait(Reap(s, p, c), p, w)
  }

  ghost predicate CanReap(s: State, p: Pid, c: Pid)
    requires Sized(s)
  {
    p < |s.pstate| && c < |s.pstate| && c in s.exited[p] && s.birth[c] < |s.life| && s.pstate[p] == ALIVE && s.pstate[c] == ZOMBIE && s.parent[c] == p && 2 <= c
  }

  lemma ReapForest(s: State, p: Pid, c: Pid, w: Wait)
    requires Sized(s) && Forest(s) && CanReap(s, p, c)
    ensures Sized(ReapAs(s, p, c, w)) && Forest(ReapAs(s, p, c, w))
  {
    hide Streams.Shape;
    var r := ReapAs(s, p, c, w);
    assert ListsOk(s, c) && ListsOk(s, p);
    WithoutRemoves(s.children[p], c);
    WithoutRemoves(s.exited[p], c);
    forall x | 0 <= x < |s.pstate| ensures NodeOk(r, x) {
      assert NodeOk(s, x);
    }
    forall q | 0 <= q < |s.pstate| ensures ListsOk(r, q) {
      assert ListsOk(s, q);
    }
  }

  lemma ReapFree(s: State, p: Pid, c: Pid, w: Wait)
    requires Sized(s) && FreeOk(s) && CanReap(s, p, c)
    ensures Sized(ReapAs(s, p, c, w)) && FreeOk(ReapAs(s, p, c, w))
  {
    hide Streams.Shape;
    var r := ReapAs(s, p, c, w);
    assert c !in s.free;
    forall k | 0 <= k < |r.free| ensures r.free[k] < |r.pstate| && r.parent[r.free[k]] == LinkTo(r.free, k + 1) {
      if k > 0 { assert s.free[k - 1] in s.free && r.free[k] == s.free[k - 1]; }
    }
  }

  lemma ReapAges(s: State, p: Pid, c: Pid, w: Wait)
    requires Sized(s) && Forest(s) && Ages(s) && CanReap(s, p, c)
    ensures Sized(ReapAs(s, p, c, w)) && Ages(ReapAs(s, p, c, w))
  {
    hide Streams.Shape, ListsOk;
    var r := ReapAs(s, p, c, w);
    assert AgeOk(s, c);
    forall x | 0 <= x < |s.pstate| ensures AgeOk(r, x) {
      assert AgeOk(s, x);
    }
    forall b | 0 <= b < |s.life| ensures LifeOk(r, b) {
      assert LifeOk(s, b);
    }
  }

  lemma ReapWaits(s: State, p: Pid, c: Pid, w: Wait)
    requires Sized(s) && Waits(s) && CanReap(s, p, c) && (w == Running || (p == 1 && w.Leaving?))
    ensures Sized(ReapAs(s, p, c, w)) && Waits(ReapAs(s, p, c, w))
  {
    hide Streams.Shape;
    var r := ReapAs(s, p, c, w);
    forall x | 0 <= x < |s.pstate| ensures WaitOk(r, x) {
      assert WaitOk(s, x);
    }
  }

  lemma ReapKeeps(s: State, p: Pid, c: Pid, w: Wait)
    requires Inv(s) && CanReap(s, p, c) && (w == Running || (p == 1 && w.Leaving?))
    ensures Inv(ReapAs(s, p, c, w))
  {
    hide Forest, FreeOk, Ages, Waits, Streams.Inv, Streams.Connected;
    ReapForest(s, p, c, w);
    ReapFree(s, p, c, w);
    ReapAges(s, p, c, w);
    ReapWaits(s, p, c, w);
  }

  // --------------------------------------------------- exit keeps the invariant

  /** Going up from any process but 0 and 1 ends at init, which is alive. */
  lemma {:induction false} InitIsAlive(s: State, c: Pid)
    requires Sized(s) && Forest(s) && Ages(s) && 2 <= c < |s.pstate| && s.pstate[c] != FREE
    ensures s.pstate[1] == ALIVE
    decreases s.birth[c]
  {
    hide ListsOk, LifeOk, Streams.Shape;
    assert NodeOk(s, c) && AgeOk(s, c);
    if s.parent[c] != 1 {
      InitIsAlive(s, s.parent[c]);
    }
  }

  lemma CloseFilesKeeps(s: State, p: Pid)
    requires Inv(s) && p < |s.pstate|
    ensures Inv(CloseFiles(s, p))
    ensures forall i | 0 <= i < |s.files.fidt[p]| :: CloseFiles(s, p).files.fidt[p][i].None?
  {
    hide Forest, FreeOk, Ages, Waits, Streams.Inv, Streams.Connected, Streams.CloseUpTo;
    assert Streams.Shape(s.files);
    Streams.CloseUpToKeeps(s.files, p, |s.files.fidt[p]|);
    SameButFiles(s, CloseFiles(s, p).files);
  }

  /** Only Filed looks at the files. */
  lemma SameButFiles(s: State, f: Streams.State)
    requires Sized(s) && Sized(s.(files := f))
    ensures Forest(s) ==> Forest(s.(files := f))
    ensures FreeOk(s) ==> FreeOk(s.(files := f))
    ensures Ages(s) ==> Ages(s.(files := f))
    ensures Waits(s) ==> Waits(s.(files := f))
  {
    hide Streams.Shape;
    var r := s.(files := f);
    if Forest(s) {
      forall c | 0 <= c < |s.pstate| ensures NodeOk(r, c) && ListsOk(r, c) { assert NodeOk(s, c) && ListsOk(s, c); }
    }
    if Ages(s) {
      forall c | 0 <= c < |s.pstate| ensures AgeOk(r, c) { assert AgeOk(s, c); }
      forall b | 0 <= b < |s.life| ensures LifeOk(r, b) { assert LifeOk(s, b); }
    }
    if Waits(s) {
      forall c | 0 <= c < |s.pstate| ensures WaitOk(r, c) { assert WaitOk(s, c); }
    }
  }

  ghost predicate CanLeave(s: State, p: Pid)
    requires Sized(s)
  {
    2 <= p < |s.pstate| && s.pstate[p] == ALIVE && s.pstate[1] == ALIVE && s.wait[p] == Running
  }

  lemma AdoptForest(s: State, p: Pid)
    requires Sized(s) && Forest(s) && CanLeave(s, p)
    ensures Sized(Adopt(s, p)) && Forest(Adopt(s, p))
  {
    hide Streams.Shape;
    var r := Adopt(s, p);
    assert ListsOk(s, p) && ListsOk(s, 1);
    DistinctConcat(Reverse(s.children[p]), s.children[1]);
    DistinctConcat(s.exited[1], s.exited[p]);
    forall c | c in s.exited[p] ensures c in s.children[p] {
      assert NodeOk(s, c);
    }
    forall x | 0 <= x < |s.pstate| ensures NodeOk(r, x) {
      assert NodeOk(s, x);
    }
    forall q | 0 <= q < |s.pstate| ensures ListsOk(r, q) {
      assert ListsOk(s, q);
    }
  }

  lemma AdoptFree(s: State, p: Pid)
    requires Sized(s) && Forest(s) && FreeOk(s) && CanLeave(s, p)
    ensures Sized(Adopt(s, p)) && FreeOk(Adopt(s, p))
  {
    hide Streams.Shape, NodeOk;
    var r := Adopt(s, p);
    assert ListsOk(s, p);
    forall k | 0 <= k < |r.free| ensures r.free[k] < |r.pstate| && r.parent[r.free[k]] == LinkTo(r.free, k + 1) {
      assert s.free[k] in s.free;
    }
  }

  lemma AdoptAges(s: State, p: Pid)
    requires Sized(s) && Forest(s) && Ages(s) && CanLeave(s, p)
    ensures Sized(Adopt(s, p)) && Ages(Adopt(s, p))
  {
    hide Streams.Shape, NodeOk;
    var r := Adopt(s, p);
    assert ListsOk(s, p) && AgeOk(s, 1);
    forall x | 0 <= x < |s.pstate| ensures AgeOk(r, x) {
      assert AgeOk(s, x);
    }
    forall b | 0 <= b < |s.life| ensures LifeOk(r, b) {
      assert LifeOk(s, b);
    }
  }

  lemma AdoptWaits(s: State, p: Pid)
    requires Sized(s) && Forest(s) && Waits(s) && CanLeave(s, p)
    ensures Sized(Adopt(s, p)) && Waits(Adopt(s, p))
  {
    hide Streams.Shape, NodeOk;
    var r := Adopt(s, p);
    assert ListsOk(s, p);
    forall x | 0 <= x < |s.pstate| ensures WaitOk(r, x) {
      assert WaitOk(s, x);
    }
  }

  lemma AdoptKeeps(s: State, p: Pid)
    requires Inv(s) && CanLeave(s, p)
    ensures Inv(Adopt(s, p))
    ensures Adopt(s, p).children[p] == [] && Adopt(s, p).exited[p] == [] && Adopt(s, p).wait[p] == Running
  {
    hide Forest, FreeOk, Ages, Waits, Streams.Inv, Streams.Connected;
    AdoptForest(s, p);
    AdoptFree(s, p);
    AdoptAges(s, p);
    AdoptWaits(s, p);
  }

  ghost predicate CanBury(s: State, p: Pid)
    requires Sized(s)
  {
    && 1 <= p < |s.pstate| && s.pstate[p] == ALIVE && s.children[p] == [] && s.exited[p] == []
    && s.birth[p] < |s.life| && -1 <= s.parent[p] < |s.pstate| && s.parent[p] != p
    && (p == 1 <==> s.parent[p] == NOPROC)
    && (forall i | 0 <= i < |s.files.fidt[p]| :: s.files.fidt[p][i].None?)
  }

  lemma BuryForest(s: State, p: Pid, val: int)
    requires Sized(s) && Forest(s) && CanBury(s, p)
    ensures Sized(Bury(s, p, val)) && Forest(Bury(s, p, val))
  {
    hide Streams.Shape;
    var r := Bury(s, p, val);
    assert NodeOk(s, p) && ListsOk(s, p);
    forall x | 0 <= x < |s.pstate| ensures NodeOk(r, x) {
      assert NodeOk(s, x);
    }
    forall q | 0 <= q < |s.pstate| ensures ListsOk(r, q) {
      assert ListsOk(s, q);
    }
  }

  lemma BuryFree(s: State, p: Pid, val: int)
    requires Sized(s) && FreeOk(s) && CanBury(s, p)
    ensures Sized(Bury(s, p, val)) && FreeOk(Bury(s, p, val))
  {
    hide Streams.Shape;
  }

  lemma BuryAges(s: State, p: Pid, val: int)
    requires Sized(s) && Ages(s) && CanBury(s, p)
    ensures Sized(Bury(s, p, val)) && Ages(Bury(s, p, val))
  {
    hide Streams.Shape;
    var r := Bury(s, p, val);
    assert AgeOk(s, p);
    forall x | 0 <= x < |s.pstate| ensures AgeOk(r, x) {
      assert AgeOk(s, x);
    }
    forall b | 0 <= b < |s.life| ensures LifeOk(r, b) {
      assert LifeOk(s, b);
    }
  }

  lemma BuryWaits(s: State, p: Pid, val: int)
    requires Sized(s) && Waits(s) && CanBury(s, p)
    ensures Sized(Bury(s, p, val)) && Waits(Bury(s, p, val))
  {
    hide Streams.Shape;
    var r := Bury(s, p, val);
    forall x | 0 <= x < |s.pstate| ensures WaitOk(r, x) {
      assert WaitOk(s, x);
    }
  }

  lemma BuryKeeps(s: State, p: Pid, val: int)
    requires Inv(s) && CanBury(s, p)
    ensures Inv(Bury(s, p, val))
  {
    hide Forest, FreeOk, Ages, Waits, Streams.Inv, Streams.Connected;
    BuryForest(s, p, val);
    BuryFree(s, p, val);
    BuryAges(s, p, val);
    BuryWaits(s, p, val);
  }

  // ------------------------------------------------------------ system calls

  /** A zombie on p's exited list is p's to reap. */
  lemma ExitedCanBeReaped(s: State, p: Pid, c: Pid)
    requires Inv(s) && p < |s.pstate| && c in s.exited[p]
    ensures CanReap(s, p, c)
  {
    hide FreeOk, Waits, Streams.Shape;
    assert ListsOk(s, p) && AgeOk(s, c);
  }

  lemma ZombieIsOnItsParentsList(s: State, c: Pid)
    requires Inv(s) && 2 <= c < |s.pstate| && s.pstate[c] == ZOMBIE
    ensures 0 <= s.parent[c] < |s.pstate| && c in s.exited[s.parent[c]]
  {
    hide FreeOk, Waits, Streams.Shape;
    assert NodeOk(s, c);
  }

  /** The loop of wait_for_specific_child and what follows it. */
  ghost function AwaitChild(s: State, p: Pid, c: Pid): Outcome
    requires Inv(s) && p < |s.pstate| && 2 <= c < |s.pstate| && s.parent[c] == p && s.pstate[c] != FREE
  {
    if s.pstate[c] == ALIVE then Outcome(SetWait(s, p, ForChild(c, false)), Blocked)
    else
      ZombieIsOnItsParentsList(s, c);
      ExitedCanBeReaped(s, p, c);
      Outcome(ReapAs(s, p, c, Running), Answered(c, Some(s.exitval[c])))
  }

  /** The loop of wait_for_any_child and what follows it; `after` is what p does next, `asleep` how it waits. */
  ghost function AwaitAny(s: State, p: Pid, asleep: Wait, after: Wait): Outcome
    requires Inv(s) && p < |s.pstate|
  {
    if s.exited[p] == [] then Outcome(SetWait(s, p, asleep), Blocked)
    else
      var c := s.exited[p][0];
      ExitedCanBeReaped(s, p, c);
      Outcome(ReapAs(s, p, c, after), Answered(c, Some(s.exitval[c])))
  }

  /** Is cpid a pid that sys_WaitChild lets p wait for? */
  predicate MyChild(s: State, p: Pid, cpid: int)
    requires Sized(s) && p < |s.pstate|
  {
    0 <= cpid < |s.pstate| && s.pstate[cpid] != FREE && s.parent[cpid] == p
  }

  lemma ChildrenAreNotRoots(s: State, p: Pid, cpid: int)
    requires Inv(s) && p < |s.pstate| && MyChild(s, p, cpid)
    ensures cpid >= 2
  {
  }

  ghost function WaitChild(s: State, p: Pid, cpid: int): Outcome
    requires Inv(s) && p < |s.pstate|
  {
    if cpid != NOPROC then
      if !MyChild(s, p, cpid) then Outcome(s, Answered(NOPROC, None))
      else
        ChildrenAreNotRoots(s, p, cpid);
        AwaitChild(s, p, cpid)
    else if s.children[p] == [] then Outcome(s, Answered(NOPROC, None))
    else AwaitAny(s, p, ForAny(false), Running)
  }

  /** Back from kernel_wait: the loop test again. */
  ghost function Recheck(s: State, p: Pid): Outcome
    requires Inv(s) && p < |s.pstate| && (s.wait[p].ForChild? || s.wait[p].ForAny?)
  {
    assert WaitOk(s, p);
    if s.wait[p].ForChild? then AwaitChild(s, p, s.wait[p].child) else AwaitAny(s, p, ForAny(false), Running)
  }

  ghost function FinishExit(s: State, p: Pid, val: int): State
    requires Inv(s) && 1 <= p < |s.pstate| && s.pstate[p] == ALIVE && (p == 1 ==> s.children[1] == [])
    requires s.wait[p] == Running || p == 1
  {
    FinishExitKeeps(s, p, val);
    Bury(Adopt(CloseFiles(s, p), p), p, val)
  }

  lemma FinishExitKeeps(s: State, p: Pid, val: int)
    requires Inv(s) && 1 <= p < |s.pstate| && s.pstate[p] == ALIVE && (p == 1 ==> s.children[1] == [])
    requires s.wait[p] == Running || p == 1
    ensures Sized(CloseFiles(s, p))
    ensures var a := Adopt(CloseFiles(s, p), p);
            Sized(a) && -1 <= a.parent[p] < |s.pstate| && a.birth[p] < |a.life| && Inv(Bury(a, p, val))
  {
    hide Inv, CloseFiles, Adopt, Bury;
    CloseFilesFrame(s, p);
    CloseFilesKeeps(s, p);
    var s1 := CloseFiles(s, p);
    if p == 1 {
      ChildlessInit(s1);
    } else {
      InitAliveInv(s1, p);
      AdoptKeeps(s1, p);
      AdoptFrame(s1, p);
    }
    BuryReady(Adopt(s1, p), p);
    BuryKeeps(Adopt(s1, p), p, val);
  }

  lemma InitAliveInv(s: State, c: Pid)
    requires Inv(s) && 2 <= c < |s.pstate| && s.pstate[c] != FREE
    ensures Sized(s) && s.pstate[1] == ALIVE
  {
    hide Forest, Ages, FreeOk, Waits;
    InitIsAlive(s, c);
  }

  lemma CloseFilesFrame(s: State, p: Pid)
    requires Inv(s) && p < |s.pstate|
    ensures Sized(s) && Sized(CloseFiles(s, p)) && CloseFiles(s, p) == s.(files := CloseFiles(s, p).files)
    ensures |CloseFiles(s, p).files.fidt[p]| == |s.files.fidt[p]|
  {
    hide Forest, Ages, FreeOk, Waits;
  }

  lemma AdoptFrame(s: State, p: Pid)
    requires Inv(s) && CanLeave(s, p)
    ensures Sized(s) && Sized(Adopt(s, p)) && Adopt(s, p).files == s.files && Adopt(s, p).pstate == s.pstate
    ensures Adopt(s, p).birth == s.birth && Adopt(s, p).life == s.life
  {
    hide Forest, Ages, FreeOk, Waits;
  }

  lemma ChildlessInit(s: State)
    requires Inv(s) && s.children[1] == []
    ensures Sized(s) && Adopt(s, 1) == s && s.exited[1] == []
  {
    ExitedAreChildren(s, 1);
    NoneFromNone(s.exited[1], s.children[1]);
  }

  lemma NoneFromNone(a: seq<Pid>, b: seq<Pid>)
    requires forall c | c in a :: c in b
    ensures a != [] ==> b != []
  {
    if a != [] { assert a[0] in b; }
  }

  lemma ExitedAreChildren(s: State, q: Pid)
    requires Inv(s) && q < |s.pstate|
    ensures forall c | c in s.exited[q] :: c in s.children[q]
  {
    hide FreeOk, Ages, Waits, Filed;
    assert ListsOk(s, q);
    forall c | c in s.exited[q] ensures c in s.children[q] {
      assert NodeOk(s, c);
    }
  }

  lemma BuryReady(s: State, p: Pid)
    requires Inv(s) && 1 <= p < |s.pstate| && s.pstate[p] == ALIVE && s.children[p] == [] && s.exited[p] == []
    requires forall i | 0 <= i < |s.files.fidt[p]| :: s.files.fidt[p][i].None?
    ensures Sized(s) && CanBury(s, p)
  {
    hide FreeOk, Waits, ListsOk, LifeOk, Streams.Inv, Streams.Connected;
    assert NodeOk(s, p) && AgeOk(s, p);
  }

  /** The loop of sys_Exit that init goes through: one WaitChild(NOPROC, NULL), or the rest of sys_Exit. */
  ghost function LeaveLoop(s: State): Outcome
    requires Inv(s) && 1 < |s.pstate| && (s.wait[1].Leaving? || s.wait[1].LeavingWaits?)
  {
    assert WaitOk(s, 1);
    var val := s.wait[1].val;
    if s.wait[1].Leaving? && s.children[1] == [] then Outcome(FinishExit(s, 1, val), Blocked)
    else AwaitAny(s, 1, LeavingWaits(val, false), Leaving(val))
  }

  ghost function Exit(s: State, p: Pid, val: int): State
    requires Inv(s) && 1 <= p < |s.pstate| && s.pstate[p] == ALIVE && s.wait[p] == Running
  {
    if p == 1 then SetWait(s, 1, Leaving(val)) else FinishExit(s, p, val)
  }

  // -------------------------------------------------------------------- runs

  datatype Action =
    | DoExec(p: Pid, hasCall: bool)
    | DoWaitChild(p: Pid, cpid: int)
    | WakeUp(p: Pid)
    | DoExit(p: Pid, val: int)
    | InitLeaves
    | File(call: Streams.Action)

  /** Only a process with a thread, not blocked in the kernel, starts system calls. */
  predicate Runs(s: State, p: Pid) {
    Sized(s) && p < |s.pstate| && s.mainThread[p] && s.wait[p] == Running
  }

  /** When a step can be taken, whatever else is true of the state. */
  predicate Guard(s: State, a: Action) {
    match a
    case DoExec(p, _) => Runs(s, p)
    case DoWaitChild(p, _) => Runs(s, p)
    case WakeUp(p) => p < |s.pstate| && p < |s.wait| && (s.wait[p].ForChild? || s.wait[p].ForAny?)
    case DoExit(p, _) => Runs(s, p)
    case InitLeaves => 1 < |s.wait| && (s.wait[1].Leaving? || s.wait[1].LeavingWaits?)
    case File(c) => Streams.Guard(s.files, c) && !c.Exec? && !c.Exit? && (c.End? || Runs(s, c.p))
  }

  ghost predicate Enabled(s: State, a: Action) {
    Inv(s) && Guard(s, a)
  }

  lemma RunsFacts(s: State, p: Pid)
    requires Inv(s) && Runs(s, p)
    ensures 1 <= p && s.pstate[p] == ALIVE && s.freelist != p && NOPROC <= s.freelist < |s.pstate| && s.freelist != 0 && s.freelist != 1
  {
    hide Ages, Filed;
    assert WaitOk(s, p);
    assert s.free != [] ==> s.free[0] in s.free;
  }

  ghost function Perform(s: State, a: Action): Outcome
    requires Enabled(s, a)
  {
    match a
    case DoExec(p, hasCall) => RunsFacts(s, p); Exec(s, p, hasCall)
    case DoWaitChild(p, cpid) => WaitChild(s, p, cpid)
    case WakeUp(p) => Recheck(s, p)
    case DoExit(p, val) => RunsFacts(s, p); Outcome(Exit(s, p, val), Blocked)
    case InitLeaves => LeaveLoop(s)
    case File(c) => Outcome(s.(files := Streams.Apply(s.files, c)), Blocked)
  }

  ghost function Apply(s: State, a: Action): State
    requires Enabled(s, a)
  {
    Perform(s, a).s
  }

  lemma SetWaitKeeps(s: State, p: Pid, w: Wait)
    requires Inv(s) && p < |s.pstate| && s.pstate[p] == ALIVE && WaitOk(SetWait(s, p, w), p)
    ensures Inv(SetWait(s, p, w))
  {
    hide Forest, FreeOk, Ages, Waits, Streams.Inv, Streams.Connected, Streams.Shape;
    SameButWait(s, s.wait[p := w]);
    SetWaitWaits(s, p, w);
  }

  /** Only Waits looks at who waits for what. */
  lemma SameButWait(s: State, w: seq<Wait>)
    requires Sized(s) && |w| == |s.wait|
    ensures Sized(s.(wait := w))
    ensures Forest(s) ==> Forest(s.(wait := w))
    ensures FreeOk(s) ==> FreeOk(s.(wait := w))
    ensures Ages(s) ==> Ages(s.(wait := w))
  {
    hide Streams.Shape, Waits;
    var r := s.(wait := w);
    if Forest(s) {
      forall c | 0 <= c < |s.pstate| ensures NodeOk(r, c) && ListsOk(r, c) { assert NodeOk(s, c) && ListsOk(s, c); }
    }
    if Ages(s) {
      forall c | 0 <= c < |s.pstate| ensures AgeOk(r, c) { assert AgeOk(s, c); }
      forall b | 0 <= b < |s.life| ensures LifeOk(r, b) { assert LifeOk(s, b); }
    }
  }

  lemma SetWaitWaits(s: State, p: Pid, w: Wait)
    requires Sized(s) && Waits(s) && p < |s.pstate| && WaitOk(SetWait(s, p, w), p)
    ensures Waits(SetWait(s, p, w))
  {
    hide Streams.Shape;
    var r := SetWait(s, p, w);
    forall x | 0 <= x < |s.pstate| ensures WaitOk(r, x) {
      assert WaitOk(s, x);
    }
  }

  lemma ForkKeeps(s: State, p: Pid, hasCall: bool)
    requires Inv(s) && Runs(s, p) && s.freelist != NOPROC
    ensures 0 <= s.freelist < |s.pstate| && s.freelist != p && Inv(Fork(s, p, hasCall))
  {
    hide Forest, Ages, Waits, Filed, Fork;
    RunsFacts(s, p);
    assert s.freelist in s.free;
    RootsBorn(s);
    ForkForest(s, p, hasCall);
    ForkFree(s, p, hasCall);
    ForkAges(s, p, hasCall);
    ForkWaits(s, p, hasCall);
    ForkFiled(s, p, hasCall);
  }

  lemma RootsBorn(s: State)
    requires Inv(s)
    ensures |s.life| >= 2 && 1 < |s.pstate|
  {
    hide FreeOk, Waits, Filed;
    assert AgeOk(s, 1);
  }

  lemma AwaitChildKeeps(s: State, p: Pid, c: Pid)
    requires Inv(s) && p < |s.pstate| && s.pstate[p] == ALIVE && 2 <= c < |s.pstate| && s.parent[c] == p && s.pstate[c] != FREE
    ensures Inv(AwaitChild(s, p, c).s)
  {
    hide Forest, FreeOk, Ages, Filed, Reap;
    if s.pstate[c] == ALIVE {
      assert WaitOk(s, p);
      SetWaitKeeps(s, p, ForChild(c, false));
    } else {
      ZombieIsOnItsParentsList(s, c);
      ExitedCanBeReaped(s, p, c);
      ReapKeeps(s, p, c, Running);
    }
  }

  lemma AwaitAnyKeeps(s: State, p: Pid, asleep: Wait, after: Wait)
    requires Inv(s) && p < |s.pstate| && s.pstate[p] == ALIVE && s.children[p] != []
    requires (asleep == ForAny(false) && after == Running) || (p == 1 && asleep.LeavingWaits? && after.Leaving?)
    ensures Inv(AwaitAny(s, p, asleep, after).s)
  {
    hide Forest, FreeOk, Ages, Filed, Reap;
    if s.exited[p] == [] {
      assert WaitOk(s, p);
      SetWaitKeeps(s, p, asleep);
    } else {
      ExitedCanBeReaped(s, p, s.exited[p][0]);
      ReapKeeps(s, p, s.exited[p][0], after);
    }
  }

  lemma FileKeeps(s: State, c: Streams.Action)
    requires Inv(s) && Enabled(s, File(c))
    ensures Inv(Apply(s, File(c)))
  {
    hide Forest, FreeOk, Ages, Waits, Streams.Inv, Streams.Connected, Streams.Apply;
    var f := Streams.Apply(s.files, c);
    Streams.StepKeepsInv(s.files, c);
    Streams.OwnRowOnly(s.files, c);
    FileShape(f);
    var r := s.(files := f);
    SameButFiles(s, f);
    if !c.End? { RunsFacts(s, c.p); }
  }

  lemma FileShape(f: Streams.State)
    requires Streams.Inv(f)
    ensures Streams.Shape(f)
  {
  }

  lemma ExitKeeps(s: State, p: Pid, val: int)
    requires Inv(s) && Runs(s, p) && 1 <= p && s.pstate[p] == ALIVE
    ensures Inv(Exit(s, p, val))
  {
    hide Forest, FreeOk, Ages, Filed;
    if p == 1 {
      assert WaitOk(s, p);
      SetWaitKeeps(s, 1, Leaving(val));
    } else {
      FinishExitKeeps(s, p, val);
    }
  }

  lemma Awake(s: State, p: Pid)
    requires Inv(s) && p < |s.pstate| && s.wait[p] != Running
    ensures s.pstate[p] == ALIVE && WaitOk(s, p)
  {
    hide Forest, FreeOk, Ages, Filed;
    assert WaitOk(s, p);
  }

  lemma StepKeepsInv(s: State, a: Action)
    requires Enabled(s, a)
    ensures Inv(Apply(s, a))
  {
    hide Forest, FreeOk, Ages, Waits, Filed, Fork, Reap, Exit, FinishExit, AwaitAny, AwaitChild, Streams.Shape;
    match a
    case DoExec(p, hasCall) => if s.freelist != NOPROC { ForkKeeps(s, p, hasCall); }
    case DoWaitChild(p, cpid) =>
      RunsFacts(s, p);
      if cpid != NOPROC && MyChild(s, p, cpid) {
        ChildrenAreNotRoots(s, p, cpid);
        AwaitChildKeeps(s, p, cpid);
      } else if cpid == NOPROC && s.children[p] != [] {
        AwaitAnyKeeps(s, p, ForAny(false), Running);
      }
    case WakeUp(p) =>
      Awake(s, p);
      if s.wait[p].ForChild? { AwaitChildKeeps(s, p, s.wait[p].child); } else { AwaitAnyKeeps(s, p, ForAny(false), Running); }
    case DoExit(p, val) =>
      RunsFacts(s, p);
      ExitKeeps(s, p, val);
    case InitLeaves =>
      RootsBorn(s);
      Awake(s, 1);
      if s.wait[1].Leaving? && s.children[1] == [] {
        FinishExitKeeps(s, 1, s.wait[1].val);
        FinishExitIs(s, 1, s.wait[1].val);
      } else {
        AwaitAnyKeeps(s, 1, LeavingWaits(s.wait[1].val, false), Leaving(s.wait[1].val));
      }
    case File(c) => FileKeeps(s, c);
  }

  lemma FinishExitIs(s: State, p: Pid, val: int)
    requires Inv(s) && 1 <= p < |s.pstate| && s.pstate[p] == ALIVE && (p == 1 ==> s.children[1] == [])
    requires s.wait[p] == Running || p == 1
    ensures Inv(FinishExit(s, p, val))
  {
    hide Inv, CloseFiles, Adopt, Bury;
    FinishExitKeeps(s, p, val);
  }

  /** initialize_processes before its Exec: a free list of all PCBs in order. */
  function Table(n: nat, files: nat, width: nat): State {
    State(seq(n, p => FREE), seq(n, p => if p + 1 < n then p + 1 else NOPROC), seq(n, p => []), seq(n, p => []),
          seq(n, p => 0), seq(n, p => false), if n == 0 then NOPROC else 0, 0, seq(n, p => Running),
          Streams.Initial(n, files, width), seq(n, p => p), seq(n, p => 0), [])
  }

  /** Exec(NULL) for the idle process, and Exec for the boot task. */
  function Booted(n: nat, files: nat, width: nat): State
    requires n >= 2
  {
    Fork(Fork(Table(n, files, width), 0, false), 0, true)
  }

  lemma BootedFields(n: nat, files: nat, width: nat)
    requires n >= 2
    ensures var s := Booted(n, files, width);
            && Sized(s) && |s.pstate| == n && s.count == 2 && s.freelist == (if n > 2 then 2 else NOPROC)
            && s.files == Streams.Initial(n, files, width)
            && s.life == [Life(0, None, None), Life(1, None, None)]
            && (forall c | 0 <= c < n :: s.pstate[c] == (if c < 2 then ALIVE else FREE) && s.children[c] == [] && s.exited[c] == []
                                      && s.wait[c] == Running && s.mainThread[c] == (c == 1))
            && s.birth[1] == 1 && s.birth[0] == 0
            && s.parent[0] == NOPROC && s.parent[1] == NOPROC && (forall c | 2 <= c < n :: s.parent[c] == if c + 1 < n then c + 1 else NOPROC)
            && |s.free| == n - 2 && (forall k | 0 <= k < n - 2 :: s.free[k] == k + 2)
  {
    Streams.InitialInv(n, files, width);
  }

  lemma BootedInv(n: nat, files: nat, width: nat)
    requires n >= 2
    ensures Inv(Booted(n, files, width)) && |Booted(n, files, width).pstate| == n
  {
    hide Booted, Streams.Shape, Streams.Inv, Streams.Connected;
    BootedFields(n, files, width);
    var s := Booted(n, files, width);
    Streams.InitialInv(n, files, width);
    forall c | 0 <= c < n ensures NodeOk(s, c) && ListsOk(s, c) && AgeOk(s, c) && WaitOk(s, c) {
    }
    forall c | 0 <= c < n ensures c in s.free <==> s.pstate[c] == FREE {
      if c >= 2 { assert s.free[c - 2] == c; }
    }
  }

  /** One step; from a state without the invariant it may lead anywhere. */
  ghost predicate Step(s: State, a: Action, s': State) {
    Guard(s, a) && (Inv(s) ==> s' == Apply(s, a))
  }

  ghost predicate IsRun(run: seq<State>, acts: seq<Action>) {
    |run| == |acts| + 1 && forall k | 0 <= k < |acts| :: Step(run[k], acts[k], run[k + 1])
  }

  ghost predicate FromBoot(run: seq<State>, acts: seq<Action>, n: nat, files: nat, width: nat) {
    n >= 2 && IsRun(run, acts) && run[0] == Booted(n, files, width)
  }

  lemma {:induction false} RunKeepsInv(run: seq<State>, acts: seq<Action>, n: nat, files: nat, width: nat, k: nat)
    requires FromBoot(run, acts, n, files, width) && k < |run|
    ensures Inv(run[k])
  {
    hide Inv, Guard, Apply, Booted;
    if k == 0 {
      BootedInv(n, files, width);
    } else {
      RunKeepsInv(run, acts, n, files, width, k - 1);
      assert Step(run[k - 1], acts[k - 1], run[k - 1 + 1]);
      StepKeepsInv(run[k - 1], acts[k - 1]);
    }
  }

  // ------------------------------------------- what the invariant amounts to

  function Up(s: State, c: Pid, k: nat): int
    requires Sized(s) && c < |s.pstate|
  {
    if k == 0 then c else
      var q := Up(s, c, k - 1);
      if 0 <= q < |s.pstate| then s.parent[q] else NOPROC
  }

  lemma {:induction false} UpFromParent(s: State, c: Pid, k: nat)
    requires Sized(s) && c < |s.pstate| && 0 <= s.parent[c] < |s.pstate|
    ensures Up(s, c, k + 1) == Up(s, s.parent[c], k)
  {
    if k > 0 { UpFromParent(s, c, k - 1); }
  }

  /** Parent links are acyclic and lead to init: k steps up from c is pid 1, by way of processes each older than the one before. */
  lemma {:induction false} AncestryEndsAtInit(s: State, c: Pid) returns (k: nat)
    requires Inv(s) && 2 <= c < |s.pstate| && s.pstate[c] != FREE
    ensures 1 <= k <= s.birth[c] && Up(s, c, k) == 1 && s.pstate[1] == ALIVE
    ensures forall j | 0 < j <= k :: 1 <= Up(s, c, j) < |s.pstate| && s.pstate[Up(s, c, j)] == ALIVE
    ensures forall j | 0 <= j < k && 0 <= Up(s, c, j) < |s.pstate| && 0 <= Up(s, c, j + 1) < |s.pstate| :: s.birth[Up(s, c, j + 1)] < s.birth[Up(s, c, j)]
    decreases s.birth[c]
  {
    hide ListsOk, LifeOk, FreeOk, Waits, Filed, Streams.Shape;
    assert NodeOk(s, c) && AgeOk(s, c);
    var q := s.parent[c];
    assert Up(s, c, 0) == c && Up(s, c, 1) == q;
    if q == 1 {
      k := 1;
    } else {
      assert AgeOk(s, q);
      var m := AncestryEndsAtInit(s, q);
      k := m + 1;
      forall j | 0 < j <= k ensures 1 <= Up(s, c, j) < |s.pstate| && s.pstate[Up(s, c, j)] == ALIVE {
        UpFromParent(s, c, j - 1);
      }
      forall j | 0 <= j < k && 0 <= Up(s, c, j) < |s.pstate| && 0 <= Up(s, c, j + 1) < |s.pstate|
        ensures s.birth[Up(s, c, j + 1)] < s.birth[Up(s, c, j)]
      {
        UpFromParent(s, c, j);
        if j > 0 { UpFromParent(s, c, j - 1); }
      }
      UpFromParent(s, c, m);
    }
  }

  lemma OnceInDistinct(q: seq<Pid>, c: Pid)
    requires Distinct(q) && c in q
    ensures multiset(q)[c] == 1
  {
    var k :| 0 <= k < |q| && q[k] == c;
    assert q == q[..k] + [c] + q[k + 1..];
    assert c !in q[..k] && c !in q[k + 1..];
  }

  /** Whenever the kernel lock is free: every process but 0 and 1 has a living parent, on whose lists it stands once. */
  lemma ProcessesFormAForest(run: seq<State>, acts: seq<Action>, n: nat, files: nat, width: nat, k: nat, c: Pid)
    requires FromBoot(run, acts, n, files, width) && k < |run| && 2 <= c < |run[k].pstate| && run[k].pstate[c] != FREE
    ensures var s := run[k];
            && Sized(s) && 1 <= s.parent[c] < |s.pstate|
            && s.pstate[s.parent[c]] == ALIVE
            && multiset(s.children[s.parent[c]])[c] == 1
            && multiset(s.exited[s.parent[c]])[c] == (if s.pstate[c] == ZOMBIE then 1 else 0)
            && (forall q | 0 <= q < |s.pstate| && q != s.parent[c] :: c !in s.children[q] && c !in s.exited[q])
            && (s.pstate[c] == ZOMBIE ==> s.children[c] == [] && s.exited[c] == [])
  {
    hide FreeOk, Ages, Waits, Filed;
    RunKeepsInv(run, acts, n, files, width, k);
    var s := run[k];
    assert NodeOk(s, c) && ListsOk(s, s.parent[c]) && ListsOk(s, c);
    OnceInDistinct(s.children[s.parent[c]], c);
    if s.pstate[c] == ZOMBIE { OnceInDistinct(s.exited[s.parent[c]], c); }
    forall q | 0 <= q < |s.pstate| && q != s.parent[c] ensures c !in s.children[q] && c !in s.exited[q] {
      assert ListsOk(s, q);
    }
  }

  /** The free list holds exactly the FREE PCBs, once each, and process_count counts the rest. */
  lemma FreeListIsExact(run: seq<State>, acts: seq<Action>, n: nat, files: nat, width: nat, k: nat)
    requires FromBoot(run, acts, n, files, width) && k < |run|
    ensures var s := run[k];
            && Sized(s) && Distinct(s.free) && (forall c | 0 <= c < |s.pstate| :: c in s.free <==> s.pstate[c] == FREE)
            && s.count == |s.pstate| - |s.free| && (s.freelist == NOPROC <==> s.free == [])
            && (forall i | 0 <= i < |s.free| :: s.free[i] < |s.pstate| && Walk(s, s.freelist, i) == s.free[i])
            && Walk(s, s.freelist, |s.free|) == NOPROC
  {
    hide Forest, Ages, Waits, Filed;
    RunKeepsInv(run, acts, n, files, width, k);
    FreeListWalk(run[k], |run[k].free|);
  }

  /** Following the parent links of free PCBs. */
  function Walk(s: State, head: int, i: nat): int
    requires Sized(s)
  {
    if i == 0 then head else
      var q := Walk(s, head, i - 1);
      if 0 <= q < |s.pstate| then s.parent[q] else NOPROC
  }

  lemma {:induction false} FreeListWalk(s: State, m: nat)
    requires Sized(s) && FreeOk(s) && m <= |s.free|
    ensures forall i | 0 <= i <= m :: Walk(s, s.freelist, i) == LinkTo(s.free, i)
  {
    if m > 0 {
      FreeListWalk(s, m - 1);
    }
  }

  /** A PCB that sys_Exec takes is clean though nothing initialises it: no relatives, no files, on no list, no thread. */
  lemma FreshPcbIsClean(s: State, c: Pid)
    requires Inv(s) && c < |s.pstate| && s.pstate[c] == FREE
    ensures s.children[c] == [] && s.exited[c] == [] && !s.mainThread[c] && s.wait[c] == Running
    ensures forall q | 0 <= q < |s.pstate| :: c !in s.children[q] && c !in s.exited[q]
    ensures forall i | 0 <= i < |s.files.fidt[c]| :: s.files.fidt[c][i].None?
  {
    hide FreeOk, Ages;
    assert ListsOk(s, c) && WaitOk(s, c);
    forall q | 0 <= q < |s.pstate| ensures c !in s.children[q] && c !in s.exited[q] {
      assert ListsOk(s, q);
    }
  }

  /** Whoever is not FREE makes init have a child. */
  lemma LastStepToInit(s: State, c: Pid) returns (x: Pid)
    requires Inv(s) && 2 <= c < |s.pstate| && s.pstate[c] != FREE
    ensures x in s.children[1] && s.pstate[1] == ALIVE
  {
    hide FreeOk, Waits, Filed, Streams.Shape;
    var k := AncestryEndsAtInit(s, c);
    assert Up(s, c, k) == 1;
    x := if k == 1 then c else Up(s, c, k - 1);
    assert Up(s, c, 0) == c;
    assert NodeOk(s, x);
  }

  /** Once init has passed the loop in sys_Exit, or as soon as it has no children, every other PCB but 0 is FREE. */
  lemma InitLeavesLast(s: State, c: Pid)
    requires Inv(s) && 2 <= c < |s.pstate| && (s.pstate[1] == ZOMBIE || s.children[1] == [])
    ensures s.pstate[c] == FREE
  {
    hide Forest, FreeOk, Waits, Ages, Filed, Streams.Shape;
    if s.pstate[c] != FREE {
      var x := LastStepToInit(s, c);
    }
  }

  /** A process asleep in sys_WaitChild and not signalled has nothing to return: its child lives, or none of its children has exited. */
  lemma NoParentSleepsPastAnExit(run: seq<State>, acts: seq<Action>, n: nat, files: nat, width: nat, k: nat, p: Pid)
    requires FromBoot(run, acts, n, files, width) && k < |run| && p < |run[k].pstate|
    ensures var s := run[k];
            && Sized(s)
            && (s.wait[p].ForChild? && !s.wait[p].signalled ==>
                  s.wait[p].child < |s.pstate| && s.pstate[s.wait[p].child] == ALIVE && s.parent[s.wait[p].child] == p)
            && ((s.wait[p].ForAny? || s.wait[p].LeavingWaits?) && !s.wait[p].signalled ==>
                  s.exited[p] == [] && forall c | c in s.children[p] :: c < |s.pstate| && s.pstate[c] == ALIVE)
  {
    hide FreeOk, Ages, Filed;
    RunKeepsInv(run, acts, n, files, width, k);
    var s := run[k];
    assert WaitOk(s, p) && ListsOk(s, p);
    forall c | c in s.children[p] && s.exited[p] == [] ensures c < |s.pstate| && s.pstate[c] == ALIVE {
      assert NodeOk(s, c);
    }
  }

  // ----------------------------------------------------- exactly-once reaping

  /** Does step a record a WaitChild that returned incarnation b? */
  ghost predicate Reaps(s: State, a: Action, b: nat) {
    Enabled(s, a) && b < |s.life| && b < |Apply(s, a).life| && s.life[b].reaped != Apply(s, a).life[b].reaped
  }

  predicate Grows(l: seq<Life>, m: seq<Life>) {
    |l| <= |m| && forall b | 0 <= b < |l| :: m[b].pid == l[b].pid && (l[b].exited.Some? ==> m[b].exited == l[b].exited) && (l[b].reaped.Some? ==> m[b].reaped == l[b].reaped)
  }

  lemma ReapLife(s: State, p: Pid, c: Pid, w: Wait)
    requires Inv(s) && CanReap(s, p, c)
    ensures var r := ReapAs(s, p, c, w); var b := s.birth[c];
            && s.life[b].pid == c && s.life[b].reaped.None? && s.life[b].exited == Some(s.exitval[c])
            && r.life == s.life[b := s.life[b].(reaped := Some(Reaping(p, s.exitval[c])))]
            && r.pstate == s.pstate[c := FREE]
            && Grows(s.life, r.life)
  {
    hide Forest, FreeOk, Waits, Filed;
    assert AgeOk(s, c);
  }

  lemma FinishExitLife(s: State, p: Pid, val: int)
    requires Inv(s) && 1 <= p < |s.pstate| && s.pstate[p] == ALIVE && (p == 1 ==> s.children[1] == [])
    requires s.wait[p] == Running || p == 1
    ensures var r := FinishExit(s, p, val); var b := s.birth[p];
            && b < |s.life| && s.life[b].exited.None? && s.life[b].reaped.None?
            && r.life == s.life[b := s.life[b].(exited := Some(val))]
            && Grows(s.life, r.life)
  {
    hide Forest, FreeOk, Waits, Filed, Adopt, CloseFiles;
    assert AgeOk(s, p);
    hide Ages;
    CloseFilesFrame(s, p);
    FinishExitKeeps(s, p, val);
    AdoptLife(CloseFiles(s, p), p);
  }

  lemma AdoptLife(s: State, p: Pid)
    requires Sized(s) && p < |s.pstate| && 1 < |s.pstate|
    ensures Adopt(s, p).life == s.life && Adopt(s, p).birth == s.birth
  {
  }

  /** What the loop of wait_for_specific_child records: nothing when it sleeps, and otherwise the child it returns. */
  ghost predicate Recorded(s: State, p: Pid, o: Outcome)
    requires Sized(s)
  {
    match o.ret
    case Blocked => o.s.life == s.life
    case Answered(c, v) =>
      && 2 <= c < |s.pstate| && v.Some? && s.pstate[c] == ZOMBIE && s.parent[c] == p
      && var b := s.birth[c];
         && b < |s.life| && s.life[b].pid == c && s.life[b].exited == v && s.life[b].reaped.None?
         && o.s.life == s.life[b := s.life[b].(reaped := Some(Reaping(p, v.value)))]
         && o.s.pstate == s.pstate[c := FREE]
  }

  lemma AwaitChildLife(s: State, p: Pid, c: Pid)
    requires Inv(s) && p < |s.pstate| && 2 <= c < |s.pstate| && s.parent[c] == p && s.pstate[c] != FREE
    ensures Recorded(s, p, AwaitChild(s, p, c)) && Grows(s.life, AwaitChild(s, p, c).s.life)
  {
    hide Forest, FreeOk, Ages, Waits, Filed, ReapAs;
    if s.pstate[c] == ZOMBIE {
      ZombieIsOnItsParentsList(s, c);
      ExitedCanBeReaped(s, p, c);
      ReapLife(s, p, c, Running);
    }
  }

  lemma AwaitAnyLife(s: State, p: Pid, asleep: Wait, after: Wait)
    requires Inv(s) && p < |s.pstate|
    ensures Recorded(s, p, AwaitAny(s, p, asleep, after)) && Grows(s.life, AwaitAny(s, p, asleep, after).s.life)
  {
    hide Forest, FreeOk, Ages, Waits, Filed, ReapAs;
    if s.exited[p] != [] {
      var c := s.exited[p][0];
      ExitedCanBeReaped(s, p, c);
      ReapLife(s, p, c, after);
    }
  }

  /** What sys_Exit records. */
  ghost predicate ExitRecorded(s: State, p: Pid, val: int, r: State)
    requires Sized(s) && p < |s.pstate|
  {
    var b := s.birth[p];
    && b < |s.life| && s.life[b].exited.None? && s.life[b].reaped.None?
    && r.life == s.life[b := s.life[b].(exited := Some(val))]
  }

  ghost predicate StepRecorded(s: State, a: Action)
    requires Enabled(s, a)
  {
    var o := Perform(s, a);
    match a
    case DoExec(p, _) => o.s.life == s.life || o.s.life == s.life + [Life(s.freelist, None, None)]
    case DoWaitChild(p, _) => Recorded(s, p, o) || (o.ret == Answered(NOPROC, None) && o.s == s)
    case WakeUp(p) => Recorded(s, p, o)
    case DoExit(p, val) => if p == 1 then o.s.life == s.life else ExitRecorded(s, p, val, o.s)
    case InitLeaves =>
      1 < |s.pstate| && if s.wait[1].Leaving? && s.children[1] == [] then ExitRecorded(s, 1, s.wait[1].val, o.s) else Recorded(s, 1, o)
    case File(_) => o.s.life == s.life
  }

  lemma InitLeavesRecords(s: State)
    requires Enabled(s, InitLeaves)
    ensures StepRecorded(s, InitLeaves) && Grows(s.life, Apply(s, InitLeaves).life)
  {
    hide Forest, FreeOk, Ages, Waits, Filed, FinishExit, AwaitAny, Recorded, Grows, Streams.Shape;
    RootsBorn(s);
    Awake(s, 1);
    if s.wait[1].Leaving? && s.children[1] == [] {
      FinishExitLife(s, 1, s.wait[1].val);
    } else {
      AwaitAnyLife(s, 1, LeavingWaits(s.wait[1].val, false), Leaving(s.wait[1].val));
    }
  }

  lemma WaitChildRecords(s: State, p: Pid, cpid: int)
    requires Enabled(s, DoWaitChild(p, cpid))
    ensures StepRecorded(s, DoWaitChild(p, cpid)) && Grows(s.life, Apply(s, DoWaitChild(p, cpid)).life)
  {
    hide Forest, FreeOk, Ages, Waits, Filed, AwaitAny, AwaitChild, Recorded, Streams.Shape;
    if cpid != NOPROC && MyChild(s, p, cpid) {
      ChildrenAreNotRoots(s, p, cpid);
      AwaitChildLife(s, p, cpid);
    } else if cpid == NOPROC && s.children[p] != [] {
      AwaitAnyLife(s, p, ForAny(false), Running);
    }
  }

  lemma WakeUpRecords(s: State, p: Pid)
    requires Enabled(s, WakeUp(p))
    ensures StepRecorded(s, WakeUp(p)) && Grows(s.life, Apply(s, WakeUp(p)).life)
  {
    hide Forest, FreeOk, Ages, Waits, Filed, AwaitAny, AwaitChild, Recorded, Grows, Streams.Shape;
    Awake(s, p);
    if s.wait[p].ForChild? {
      AwaitChildLife(s, p, s.wait[p].child);
    } else {
      AwaitAnyLife(s, p, ForAny(false), Running);
    }
  }

  /** No step takes back what has been recorded of an incarnation. */
  lemma LivesOnlyGrow(s: State, a: Action)
    requires Enabled(s, a)
    ensures StepRecorded(s, a) && Grows(s.life, Apply(s, a).life)
  {
    hide Forest, FreeOk, Ages, Waits, Filed, FinishExit, Recorded, Streams.Shape, Streams.Apply, Streams.Enabled;
    match a
    case DoWaitChild(p, cpid) => WaitChildRecords(s, p, cpid);
    case WakeUp(p) => WakeUpRecords(s, p);
    case DoExit(p, val) =>
      RunsFacts(s, p);
      if p != 1 { FinishExitLife(s, p, val); }
    case InitLeaves => InitLeavesRecords(s);
    case DoExec(p, _) => RunsFacts(s, p);
    case File(_) =>
  }

  /**
   * The step that reaps incarnation b is a WaitChild, or init's loop in sys_Exit, of the parent that
   * pid has at that moment; it returns the pid and the value that b passed to Exit, and frees the PCB.
   */
  lemma ReapedByItsParent(s: State, a: Action, b: nat)
    requires Enabled(s, a) && Reaps(s, a, b)
    ensures var c := s.life[b].pid; var r := Apply(s, a);
            && s.life[b].reaped.None? && s.life[b].exited.Some?
            && c < |s.pstate| && s.birth[c] == b && s.pstate[c] == ZOMBIE && s.parent[c] >= 1
            && Perform(s, a).ret == Answered(c, s.life[b].exited)
            && (a == WakeUp(s.parent[c]) || (a.DoWaitChild? && a.p == s.parent[c]) || (a == InitLeaves && s.parent[c] == 1))
            && r.life[b].reaped == Some(Reaping(s.parent[c], s.life[b].exited.value))
            && c < |r.pstate| && r.pstate[c] == FREE
  {
    hide Forest, FreeOk, Ages, Waits, Filed, Perform, Streams.Shape;
    LivesOnlyGrow(s, a);
    StepKeepsInv(s, a);
    if a.WakeUp? || a.DoWaitChild? || a.InitLeaves? {
      var o := Perform(s, a);
      assert o.ret.Answered? && o.ret.pid >= 2;
      ParentIsPositive(s, o.ret.pid);
    }
  }

  lemma ParentIsPositive(s: State, c: Pid)
    requires Inv(s) && 2 <= c < |s.pstate| && s.pstate[c] != FREE
    ensures s.parent[c] >= 1
  {
    hide FreeOk, Ages, Waits, Filed;
    assert NodeOk(s, c);
  }

  /** And nothing but a reaping is answered with a child and its exit value. */
  lemma AnswersAreReapings(s: State, a: Action, c: int, v: int)
    requires Enabled(s, a) && Perform(s, a).ret == Answered(c, Some(v))
    ensures 2 <= c < |s.pstate| && Reaps(s, a, s.birth[c]) && s.life[s.birth[c]].pid == c && s.life[s.birth[c]].exited == Some(v)
  {
    hide Forest, FreeOk, Ages, Waits, Filed, Perform, Streams.Shape;
    LivesOnlyGrow(s, a);
    ExecAnswers(s, a);
    assert Recorded(s, if a.InitLeaves? then 1 else a.p, Perform(s, a));
  }

  lemma ExecAnswers(s: State, a: Action)
    requires Enabled(s, a) && Perform(s, a).ret.Answered? && Perform(s, a).ret.status.Some?
    ensures a.DoWaitChild? || a.WakeUp? || (a.InitLeaves? && !(s.wait[1].Leaving? && s.children[1] == []))
  {
    hide Forest, FreeOk, Ages, Waits, Filed;
  }

  /** The value WaitChild later returns is the one passed to Exit. */
  lemma ExitValueIsRecorded(s: State, p: Pid, val: int)
    requires Enabled(s, DoExit(p, val)) && p >= 2
    ensures s.birth[p] < |s.life| && s.life[s.birth[p]].exited.None?
    ensures var r := Apply(s, DoExit(p, val)); s.birth[p] < |r.life| && r.life[s.birth[p]].exited == Some(val)
  {
    hide Inv, Forest, FreeOk, Ages, Waits, Filed, Perform;
    LivesOnlyGrow(s, DoExit(p, val));
  }

  lemma {:induction false} RecordsLast(run: seq<State>, acts: seq<Action>, n: nat, files: nat, width: nat, i: nat, j: nat)
    requires FromBoot(run, acts, n, files, width) && i <= j < |run|
    ensures Grows(run[i].life, run[j].life)
  {
    hide Inv, Guard, Apply, Grows, Booted;
    if i < j {
      RecordsLast(run, acts, n, files, width, i, j - 1);
      assert Step(run[j - 1], acts[j - 1], run[j - 1 + 1]);
      RunKeepsInv(run, acts, n, files, width, j - 1);
      LivesOnlyGrow(run[j - 1], acts[j - 1]);
      GrowsOn(run[i].life, run[j - 1].life, run[j].life);
    } else {
      GrowsSelf(run[i].life);
    }
  }

  lemma GrowsSelf(l: seq<Life>)
    ensures Grows(l, l)
  {
  }

  lemma GrowsOn(l: seq<Life>, m: seq<Life>, n: seq<Life>)
    requires Grows(l, m) && Grows(m, n)
    ensures Grows(l, n)
  {
    forall b | 0 <= b < |l| ensures n[b].pid == l[b].pid && (l[b].exited.Some? ==> n[b].exited == l[b].exited) && (l[b].reaped.Some? ==> n[b].reaped == l[b].reaped) {
      assert m[b].pid == l[b].pid;
    }
  }

  /** Does the step after state k of a run record a WaitChild that returned incarnation b? */
  predicate ReapedAt(run: seq<State>, k: nat, b: nat) {
    k + 1 < |run| && b < |run[k].life| && b < |run[k + 1].life| && run[k].life[b].reaped != run[k + 1].life[b].reaped
  }

  /** In no run do two steps reap the same incarnation. */
  lemma ReapedAtMostOnce(run: seq<State>, acts: seq<Action>, n: nat, files: nat, width: nat, i: nat, j: nat, b: nat)
    requires FromBoot(run, acts, n, files, width) && ReapedAt(run, i, b) && ReapedAt(run, j, b)
    ensures i == j
  {
    hide IsRun, Booted;
    if i < j {
      ReapedOnce(run, acts, n, files, width, i, j, b);
    } else if j < i {
      ReapedOnce(run, acts, n, files, width, j, i, b);
    }
  }

  lemma ReapedOnce(run: seq<State>, acts: seq<Action>, n: nat, files: nat, width: nat, i: nat, j: nat, b: nat)
    requires FromBoot(run, acts, n, files, width) && i < j && ReapedAt(run, i, b)
    ensures !ReapedAt(run, j, b)
  {
    hide Inv, Guard, Apply, Booted;
    if ReapedAt(run, j, b) {
      RunKeepsInv(run, acts, n, files, width, i);
      assert Step(run[i], acts[i], run[i + 1]);
      ReapedByItsParent(run[i], acts[i], b);
      RecordsLast(run, acts, n, files, width, i + 1, j);
      RecordsLast(run, acts, n, files, width, j, j + 1);
    }
  }

  /** Each reaping of a run is done by the parent at that moment, with the value the incarnation passed to Exit. */
  lemma RunsReapRightly(run: seq<State>, acts: seq<Action>, n: nat, files: nat, width: nat, k: nat, b: nat)
    requires FromBoot(run, acts, n, files, width) && ReapedAt(run, k, b)
    ensures var s, x := run[k], run[k].life[b];
            && x.pid < |s.pstate| && |s.parent| == |s.pstate| && s.pstate[x.pid] == ZOMBIE && s.parent[x.pid] >= 1
            && x.reaped.None? && x.exited.Some? && run[k + 1].life[b].reaped == Some(Reaping(s.parent[x.pid], x.exited.value))
            && (acts[k] == WakeUp(s.parent[x.pid]) || (acts[k].DoWaitChild? && acts[k].p == s.parent[x.pid]) || (acts[k] == InitLeaves && s.parent[x.pid] == 1))
  {
    hide Forest, FreeOk, Ages, Waits, Filed, Guard, Apply, Booted;
    RunKeepsInv(run, acts, n, files, width, k);
    assert Step(run[k], acts[k], run[k + 1]);
    ReapedByItsParent(run[k], acts[k], b);
  }

  /** A pid is used again only after its last incarnation has been reaped. */
  lemma ReusedOnlyAfterReaping(s: State, b: nat, d: nat)
    requires Inv(s) && b < |s.life| && d < |s.life| && b != d && s.life[b].pid == s.life[d].pid
    ensures s.life[b].reaped.Some? || s.life[d].reaped.Some?
  {
    hide Forest, FreeOk, Waits, Filed;
    assert LifeOk(s, b) && LifeOk(s, d);
  }

  /** The FIDT of a FREE process can take its parent's streams. */
  lemma FreshFiles(s: State, c: Pid)
    requires Inv(s) && c < |s.pstate| && s.pstate[c] == FREE
    ensures Sized(s) && forall p | 0 <= p < |s.pstate| && p != c :: Streams.CanInherit(s.files, p, c)
  {
    hide Forest, FreeOk, Ages, Waits;
  }

  /** What sys_Exec by p relies on. */
  ghost predicate CanExec(s: State, p: Pid) {
    && Sized(s) && p < |s.pstate| && (s.freelist != NOPROC ==> 0 <= s.freelist < |s.pstate|)
    && (s.freelist > 1 ==> s.freelist != p && Streams.CanInherit(s.files, p, s.freelist))
  }

  lemma ExecIsReady(s: State, p: Pid)
    requires Inv(s) && Runs(s, p)
    ensures CanExec(s, p)
  {
    hide Forest, FreeOk, Ages, Waits, Filed;
    RunsFacts(s, p);
    if s.freelist != NOPROC {
      FreeHead(s);
      FreshFiles(s, s.freelist);
    }
  }

  lemma FreeHead(s: State)
    requires Inv(s) && s.freelist != NOPROC
    ensures 0 <= s.freelist < |s.pstate| && s.pstate[s.freelist] == FREE
  {
    hide Forest, Ages, Waits, Filed;
    assert s.freelist in s.free;
  }

  /** The table before its first Exec, told by its entries. */
  lemma IsTable(s: State, n: nat, files: nat, width: nat)
    requires |s.pstate| == n && |s.parent| == n && |s.children| == n && |s.exited| == n
    requires |s.exitval| == n && |s.mainThread| == n && |s.wait| == n && s.freelist == (if n == 0 then NOPROC else 0) && s.count == 0 && s.life == []
    requires s.files == Streams.Initial(n, files, width) && s.free == Table(n, files, width).free && s.birth == Table(n, files, width).birth
    requires forall c | 0 <= c < n :: s.pstate[c] == FREE && s.children[c] == [] && s.exited[c] == [] && s.exitval[c] == 0
                                   && !s.mainThread[c] && s.wait[c] == Running && s.parent[c] == if c + 1 < n then c + 1 else NOPROC
    ensures s == Table(n, files, width)
  {
    hide Streams.Shape;
    var r := Table(n, files, width);
    assert s.pstate == r.pstate;
    assert s.parent == r.parent;
    assert s.children == r.children;
    assert s.exited == r.exited;
    assert s.exitval == r.exitval;
    assert s.mainThread == r.mainThread;
    assert s.wait == r.wait;
  }

  /** The first two Execs get the pids 0 and 1. */
  lemma TableForks(n: nat, files: nat, width: nat)
    requires n >= 2
    ensures var s := Table(n, files, width); var r := Fork(s, 0, false);
            && s.freelist == 0 && CanExec(s, 0)
            && r.freelist == 1 && CanExec(r, 0)
  {
    Streams.InitialInv(n, files, width);
  }

  lemma {:induction false} ReverseSnoc(q: seq<Pid>, c: Pid)
    ensures Reverse(q + [c]) == [c] + Reverse(q)
  {
    if q == [] {
      assert [c][1..] == [];
    } else {
      assert (q + [c])[1..] == q[1..] + [c];
      ReverseSnoc(q[1..], c);
    }
  }

  lemma ChildrenInRange(s: State, p: Pid)
    requires Inv(s) && p < |s.pstate|
    ensures Sized(s) && forall c | c in s.children[p] :: c < |s.parent|
  {
    hide FreeOk, Ages, Waits, Filed;
    assert ListsOk(s, p);
  }

  // ------------------------------------------- what Exec and Exit do, from outside

  /** The new process is a living child of the caller with the caller's open files, and nothing else changes hands. */
  lemma ExecAttaches(s: State, p: Pid, hasCall: bool)
    requires Enabled(s, DoExec(p, hasCall)) && s.freelist != NOPROC
    ensures var c := s.freelist; var r := Apply(s, DoExec(p, hasCall));
            && Perform(s, DoExec(p, hasCall)).ret == Answered(c, None)
            && 2 <= c < |s.pstate| && s.pstate[c] == FREE && Sized(r) && |r.pstate| == |s.pstate|
            && r.pstate[c] == ALIVE && r.parent[c] == p && r.mainThread[c] == hasCall
            && r.files.fidt[c] == s.files.fidt[p]
            && r.children[p] == [c] + s.children[p]
            && (forall q | 0 <= q < |s.pstate| && q != c ::
                 r.pstate[q] == s.pstate[q] && r.parent[q] == s.parent[q] && r.exited[q] == s.exited[q] && r.files.fidt[q] == s.files.fidt[q])
            && (forall q | 0 <= q < |s.pstate| && q != p :: r.children[q] == s.children[q])
  {
    hide Forest, FreeOk, Ages, Waits, Filed, Streams.InheritUpTo;
    RunsFacts(s, p);
    FreeHead(s);
    FreshPcbIsClean(s, s.freelist);
    FreshFiles(s, s.freelist);
    ForkSized(s, p, hasCall);
    Streams.InheritCopies(s.files, p, s.freelist, |s.files.fidt[p]|);
    var f := Streams.InheritUpTo(s.files, p, s.freelist, |s.files.fidt[p]|);
    assert f.fidt[s.freelist] == s.files.fidt[p];
  }

  /**
   * The children of an exiting process become init's and keep their states, init is told of those
   * that are zombies, the parent is told of the exit, and no file stays open.
   */
  lemma ExitHandsOver(s: State, p: Pid, val: int)
    requires Enabled(s, DoExit(p, val)) && 2 <= p
    ensures var r := Apply(s, DoExit(p, val)); var q := s.parent[p];
            && Sized(r) && |r.pstate| == |s.pstate| && 1 <= q < |s.pstate| && 1 < |s.pstate|
            && r.pstate[p] == ZOMBIE && r.exitval[p] == val && !r.mainThread[p] && p in r.exited[q]
            && r.children[p] == [] && r.exited[p] == []
            && r.children[1] == Reverse(s.children[p]) + s.children[1]
            && r.exited[q] == [p] + (if q == 1 then s.exited[1] + s.exited[p] else s.exited[q])
            && (q != 1 ==> r.exited[1] == s.exited[1] + s.exited[p])
            && (forall x | 2 <= x < |s.pstate| && x != p :: r.children[x] == s.children[x] && (x != q ==> r.exited[x] == s.exited[x]))
            && (forall c | 2 <= c < |s.pstate| && c != p && s.pstate[c] != FREE ::
                 && r.pstate[c] == s.pstate[c]
                 && r.parent[c] == (if s.parent[c] == p then 1 else s.parent[c])
                 && (s.parent[c] == p ==> c in r.children[1] && (c in r.exited[1] <==> c in s.exited[p])))
            && Woken(r.wait[q]) == r.wait[q]
            && (s.exited[p] != [] ==> Woken(r.wait[1]) == r.wait[1])
            && (forall i | 0 <= i < |r.files.fidt[p]| :: r.files.fidt[p][i].None?)
            && (forall x | 0 <= x < |s.pstate| && x != p :: r.files.fidt[x] == s.files.fidt[x])
  {
    hide Forest, FreeOk, Ages, Waits, Filed, Adopt, Bury, CloseFiles, Streams.Shape;
    RunsFacts(s, p);
    InitAliveInv(s, p);
    var s1 := CloseFiles(s, p);
    CloseFilesKeeps(s, p);
    CloseFilesFrame(s, p);
    CloseFilesRows(s, p);
    AdoptMoves(s1, p);
    FinishExitKeeps(s, p, val);
    StepKeepsInv(s, DoExit(p, val));
    BuryTells(Adopt(s1, p), p, val);
    ParentIsPositive(s, p);
  }

  lemma CloseFilesRows(s: State, p: Pid)
    requires Inv(s) && p < |s.pstate|
    ensures forall x | 0 <= x < |s.pstate| && x != p :: CloseFiles(s, p).files.fidt[x] == s.files.fidt[x]
  {
    hide Forest, FreeOk, Ages, Waits;
  }

  lemma AdoptMoves(s: State, p: Pid)
    requires Inv(s) && CanLeave(s, p)
    ensures var a := Adopt(s, p);
            && Sized(a) && a.pstate == s.pstate && a.files == s.files && a.parent[p] == s.parent[p] && 1 <= s.parent[p] < |s.pstate| && s.parent[p] != p && a.children[p] == [] && a.exited[p] == []
            && (forall c | 2 <= c < |s.pstate| && s.pstate[c] != FREE ::
                 && a.parent[c] == (if s.parent[c] == p then 1 else s.parent[c])
                 && (s.parent[c] == p ==> c in a.children[1] && (c in a.exited[1] <==> c in s.exited[p])))
            && (s.exited[p] != [] ==> Woken(a.wait[1]) == a.wait[1])
            && a.children[1] == Reverse(s.children[p]) + s.children[1] && a.exited[1] == s.exited[1] + s.exited[p]
            && (forall x | 2 <= x < |s.pstate| && x != p :: a.children[x] == s.children[x] && a.exited[x] == s.exited[x])
  {
    hide FreeOk, LifeOk, Waits, Filed, Streams.Shape;
    AdoptFrame(s, p);
    assert ListsOk(s, p) && ListsOk(s, 1);
    assert NodeOk(s, p) && AgeOk(s, p);
    assert p !in s.children[p];
    forall c | 2 <= c < |s.pstate| && s.pstate[c] != FREE
      ensures s.parent[c] == p <==> c in s.children[p]
      ensures s.parent[c] == p ==> c !in s.exited[1]
    {
      assert NodeOk(s, c);
    }
  }

  lemma BuryTells(s: State, p: Pid, val: int)
    requires Sized(s) && p < |s.pstate| && 0 <= s.parent[p] < |s.pstate| && s.birth[p] < |s.life| && s.parent[p] != p
    requires s.children[p] == [] && s.exited[p] == []
    ensures var r := Bury(s, p, val); var q := s.parent[p];
            && r.pstate == s.pstate[p := ZOMBIE] && r.exitval == s.exitval[p := val] && r.mainThread == s.mainThread[p := false]
            && r.parent == s.parent && r.children == s.children && r.files == s.files
            && r.exited == s.exited[q := [p] + s.exited[q]]
            && Woken(r.wait[q]) == r.wait[q]
            && (forall x | 0 <= x < |s.pstate| && Woken(s.wait[x]) == s.wait[x] :: Woken(r.wait[x]) == r.wait[x])
  {
    hide Streams.Shape;
  }

  /** Init ends its exit, when it has no children left, as a zombie without relatives and without files; all other PCBs but 0 are FREE. */
  lemma InitExits(s: State)
    requires Enabled(s, InitLeaves) && s.wait[1].Leaving? && 1 < |s.children| && s.children[1] == []
    ensures var r := Apply(s, InitLeaves);
            && Sized(r) && |r.pstate| == |s.pstate| && 1 < |s.pstate|
            && r.pstate == s.pstate[1 := ZOMBIE] && r.exitval[1] == s.wait[1].val && !r.mainThread[1]
            && r.children == s.children && r.exited == s.exited && r.children[1] == [] && r.exited[1] == [] && r.parent == s.parent
            && (forall i | 0 <= i < |r.files.fidt[1]| :: r.files.fidt[1][i].None?)
            && (forall c | 2 <= c < |s.pstate| :: r.pstate[c] == FREE)
  {
    hide Forest, FreeOk, Ages, Waits, Filed, Adopt, CloseFiles, Streams.Shape;
    RootsBorn(s);
    Awake(s, 1);
    CloseFilesKeeps(s, 1);
    CloseFilesFrame(s, 1);
    ChildlessInit(CloseFiles(s, 1));
    RootsAreOrphans(s);
    StepKeepsInv(s, InitLeaves);
    forall c | 2 <= c < |s.pstate| ensures s.pstate[c] == FREE {
      InitLeavesLast(s, c);
    }
  }

  lemma RootsAreOrphans(s: State)
    requires Inv(s)
    ensures 1 < |s.pstate| && s.parent[1] == NOPROC
  {
    hide FreeOk, Ages, Waits, Filed;
  }
}
