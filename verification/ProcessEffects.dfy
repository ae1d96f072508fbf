// What sys_Exec, sys_WaitChild and sys_Exit answer and change, over the fields of PT, and what becomes
// of a process between its call and its return.

module ProcessEffects {
  import opened Lists
  import opened Processes
  import Streams

  /** Some process has p as its parent; and some of them is a zombie. */
  ghost predicate HasChild(s: State, p: Pid) {
    Sized(s) && exists c :: 0 <= c < |s.pstate| && s.pstate[c] != FREE && s.parent[c] == p
  }

  ghost predicate HasZombie(s: State, p: Pid) {
    Sized(s) && exists c :: 0 <= c < |s.pstate| && s.pstate[c] == ZOMBIE && s.parent[c] == p
  }

  /** The calls sys_WaitChild turns down: for what is no pid, not in use or no child of p, or by a childless p. */
  ghost predicate Refused(s: State, p: Pid, cpid: int) {
    if cpid == NOPROC then !HasChild(s, p)
    else Sized(s) && (cpid < 0 || cpid >= |s.pstate| || s.pstate[cpid] == FREE || s.parent[cpid] != p)
  }

  /** p goes to sleep as w, and nothing else changes. */
  predicate Sleeps(s: State, r: State, p: Pid, w: Wait) {
    p < |s.wait| && r == s.(wait := s.wait[p := w])
  }

  /** c, on both lists of p, leaves them and becomes the first FREE PCB; p goes on as w. */
  predicate Collects(s: State, r: State, p: Pid, c: Pid, w: Wait) {
    && Sized(s) && p < |s.pstate| && c < |s.pstate| && c in s.exited[p] && c in s.children[p]
    && r.pstate == s.pstate[c := FREE] && r.parent == s.parent[c := s.freelist] && r.freelist == c && r.count == s.count - 1
    && r.children == s.children[p := Without(s.children[p], c)] && r.exited == s.exited[p := Without(s.exited[p], c)]
    && r.wait == s.wait[p := w] && r.exitval == s.exitval && r.mainThread == s.mainThread && r.files == s.files
  }

  /** wait_for_specific_child: the child's value if it is a zombie, or sleep. */
  predicate AnsweredForChild(s: State, p: Pid, c: Pid, r: State, ret: Answer) {
    && Sized(s) && p < |s.pstate| && c < |s.pstate|
    && if s.pstate[c] == ZOMBIE then ret == Answered(c, Some(s.exitval[c])) && Collects(s, r, p, c, Running)
       else ret == Blocked && Sleeps(s, r, p, ForChild(c, false))
  }

  /** wait_for_any_child: the value of the child that has exited last, or sleep. */
  ghost predicate AnsweredForAny(s: State, p: Pid, r: State, ret: Answer, asleep: Wait, after: Wait) {
    && Sized(s) && p < |s.pstate|
    && if HasZombie(s, p) then
         && s.exited[p] != []
         && var c := s.exited[p][0];
         && c < |s.pstate| && s.pstate[c] == ZOMBIE && s.parent[c] == p
         && ret == Answered(c, Some(s.exitval[c])) && Collects(s, r, p, c, after) && r.exited[p] == s.exited[p][1..]
       else ret == Blocked && Sleeps(s, r, p, asleep)
  }

  lemma ListsHaveWhom(s: State, p: Pid)
    requires Inv(s) && p < |s.pstate| && p >= 1
    ensures HasChild(s, p) <==> s.children[p] != []
    ensures HasZombie(s, p) <==> s.exited[p] != []
  {
    hide FreeOk, Ages, Waits, Filed, Streams.Shape;
    assert ListsOk(s, p);
    if s.children[p] != [] { assert s.children[p][0] in s.children[p]; }
    if s.exited[p] != [] { assert s.exited[p][0] in s.exited[p]; }
    if HasChild(s, p) {
      var c :| 0 <= c < |s.pstate| && s.pstate[c] != FREE && s.parent[c] == p;
      assert NodeOk(s, c);
    }
    if HasZombie(s, p) {
      var c :| 0 <= c < |s.pstate| && s.pstate[c] == ZOMBIE && s.parent[c] == p;
      assert NodeOk(s, c);
    }
  }

  lemma ReapCollects(s: State, p: Pid, c: Pid, w: Wait)
    requires Inv(s) && CanReap(s, p, c)
    ensures Collects(s, ReapAs(s, p, c, w), p, c, w)
    ensures c == s.exited[p][0] ==> ReapAs(s, p, c, w).exited[p] == s.exited[p][1..]
  {
    hide Forest, FreeOk, Ages, Waits, Filed, Streams.Shape;
    ExitedAreChildren(s, p);
  }

  lemma AwaitChildDoes(s: State, p: Pid, c: Pid)
    requires Inv(s) && p < |s.pstate| && 2 <= c < |s.pstate| && s.parent[c] == p && s.pstate[c] != FREE
    ensures var o := AwaitChild(s, p, c); AnsweredForChild(s, p, c, o.s, o.ret)
  {
    hide Forest, FreeOk, Ages, Waits, Filed, Streams.Shape, ReapAs, Collects;
    if s.pstate[c] == ZOMBIE {
      ZombieIsOnItsParentsList(s, c);
      ExitedCanBeReaped(s, p, c);
      ReapCollects(s, p, c, Running);
    }
  }

  lemma AwaitAnyDoes(s: State, p: Pid, asleep: Wait, after: Wait)
    requires Inv(s) && p < |s.pstate| && p >= 1
    ensures var o := AwaitAny(s, p, asleep, after); AnsweredForAny(s, p, o.s, o.ret, asleep, after)
  {
    hide Forest, FreeOk, Ages, Waits, Filed, Streams.Shape, ReapAs, Collects, HasZombie;
    ListsHaveWhom(s, p);
    if s.exited[p] != [] {
      ExitedCanBeReaped(s, p, s.exited[p][0]);
      ReapCollects(s, p, s.exited[p][0], after);
    }
  }

  /** What a call of sys_WaitChild by p comes to. */
  ghost predicate WaitChildDoes(s: State, p: Pid, cpid: int, r: State, ret: Answer) {
    if Refused(s, p, cpid) then ret == Answered(NOPROC, None) && r == s
    else if cpid == NOPROC then AnsweredForAny(s, p, r, ret, ForAny(false), Running)
    else cpid >= 0 && AnsweredForChild(s, p, cpid, r, ret)
  }

  /**
   * WaitChild answers NOPROC just for a pid out of range, FREE or not p's child, or if p has no children.
   * Otherwise it answers with a child that is a zombie, and its value, or p sleeps until it can.
   */
  lemma WaitChildEffect(s: State, p: Pid, cpid: int)
    requires Enabled(s, DoWaitChild(p, cpid))
    ensures var o := Perform(s, DoWaitChild(p, cpid));
            && WaitChildDoes(s, p, cpid, o.s, o.ret)
            && (o.ret == Answered(NOPROC, None) <==> Refused(s, p, cpid))
  {
    hide Forest, FreeOk, Ages, Waits, Filed, Streams.Shape, AwaitAny, AwaitChild, HasChild, AnsweredForAny, AnsweredForChild;
    RunsFacts(s, p);
    ListsHaveWhom(s, p);
    if cpid != NOPROC {
      if !Refused(s, p, cpid) {
        assert MyChild(s, p, cpid);
        ChildrenAreNotRoots(s, p, cpid);
        AwaitChildDoes(s, p, cpid);
        NotRefused(s, p, cpid, AwaitChild(s, p, cpid));
      }
    } else if s.children[p] != [] {
      AwaitAnyDoes(s, p, ForAny(false), Running);
      NotNoproc(s, p, AwaitAny(s, p, ForAny(false), Running), ForAny(false), Running);
    }
  }

  lemma NotRefused(s: State, p: Pid, c: Pid, o: Outcome)
    requires AnsweredForChild(s, p, c, o.s, o.ret)
    ensures o.ret != Answered(NOPROC, None)
  {
  }

  lemma NotNoproc(s: State, p: Pid, o: Outcome, asleep: Wait, after: Wait)
    requires AnsweredForAny(s, p, o.s, o.ret, asleep, after)
    ensures o.ret != Answered(NOPROC, None)
  {
  }

  /** Woken in kernel_wait, p answers if it can by now, and sleeps on if not. */
  ghost predicate WakeUpDoes(s: State, p: Pid, r: State, ret: Answer) {
    && p < |s.wait|
    && match s.wait[p]
       case ForChild(c, _) => AnsweredForChild(s, p, c, r, ret)
       case _ => AnsweredForAny(s, p, r, ret, ForAny(false), Running)
  }

  lemma WakeUpEffect(s: State, p: Pid)
    requires Enabled(s, WakeUp(p))
    ensures var o := Perform(s, WakeUp(p)); WakeUpDoes(s, p, o.s, o.ret)
  {
    hide Forest, FreeOk, Ages, Waits, Filed, Streams.Shape, AwaitAny, AwaitChild, AnsweredForAny, AnsweredForChild;
    Awake(s, p);
    if s.wait[p].ForChild? {
      AwaitChildDoes(s, p, s.wait[p].child);
    } else {
      ZeroDoesNotWait(s);
      AwaitAnyDoes(s, p, ForAny(false), Running);
    }
  }

  lemma ZeroDoesNotWait(s: State)
    requires Inv(s)
    ensures 0 < |s.wait| && !s.wait[0].ForAny?
  {
    hide FreeOk, Ages, Filed, Streams.Shape;
    assert WaitOk(s, 0);
  }

  /** Init's loop in sys_Exit collects like WaitChild(NOPROC, NULL) as long as there are children. */
  lemma InitLeavesEffect(s: State)
    requires Enabled(s, InitLeaves) && !(s.wait[1].Leaving? && 1 < |s.children| && s.children[1] == [])
    ensures var o, val := Perform(s, InitLeaves), s.wait[1].val;
            AnsweredForAny(s, 1, o.s, o.ret, LeavingWaits(val, false), Leaving(val))
  {
    hide Forest, FreeOk, Ages, Waits, Filed, Streams.Shape, AwaitAny, AnsweredForAny, FinishExit;
    RootsBorn(s);
    AwaitAnyDoes(s, 1, LeavingWaits(s.wait[1].val, false), Leaving(s.wait[1].val));
  }

  /** A call on streams is a step of `Streams`, and changes nothing else. */
  lemma FileEffect(s: State, c: Streams.Action)
    requires Enabled(s, File(c))
    ensures Streams.Enabled(s.files, c) && Apply(s, File(c)) == s.(files := Streams.Apply(s.files, c))
  {
    hide Forest, FreeOk, Ages, Waits, Streams.Apply;
  }

  // ------------------------------------------------------------------- Exec

  /** Exec fails, with NOPROC and no change, just if no PCB is FREE. */
  lemma ExecOnFullTable(s: State, p: Pid, hasCall: bool)
    requires Enabled(s, DoExec(p, hasCall))
    ensures var o := Perform(s, DoExec(p, hasCall));
            && (o.ret == Answered(NOPROC, None) <==> forall c | 0 <= c < |s.pstate| :: s.pstate[c] != FREE)
            && (o.ret == Answered(NOPROC, None) ==> o.s == s)
  {
    hide Forest, Ages, Waits, Filed, Fork, Streams.Shape;
    RunsFacts(s, p);
    if s.freelist == NOPROC {
      assert s.free == [];
    } else {
      FreeHead(s);
    }
  }

  /** What Exec leaves alone, and the new process's own entries. */
  lemma ExecFrame(s: State, p: Pid, hasCall: bool)
    requires Enabled(s, DoExec(p, hasCall)) && s.freelist != NOPROC
    ensures var c, r := s.freelist, Apply(s, DoExec(p, hasCall));
            && 2 <= c < |s.pstate| && s.pstate[c] == FREE
            && r.wait == s.wait && r.wait[c] == Running && r.exitval == s.exitval && r.exited == s.exited && r.exited[c] == [] && r.children[c] == []
            && r.mainThread == s.mainThread[c := hasCall]
            && r.count == s.count + 1 && r.freelist == s.parent[c] && r.freelist != c
            && r.pstate == s.pstate[c := ALIVE] && r.parent == s.parent[c := p]
  {
    hide Forest, FreeOk, Ages, Waits, Filed, Streams.InheritUpTo, Streams.Shape;
    RunsFacts(s, p);
    FreeHead(s);
    FreshPcbIsClean(s, s.freelist);
    FreeLinks(s);
  }

  lemma FreeLinks(s: State)
    requires Inv(s) && s.freelist != NOPROC
    ensures 0 <= s.freelist < |s.pstate| && s.parent[s.freelist] != s.freelist
  {
    hide Forest, Ages, Waits, Filed, Streams.Shape;
    assert s.parent[s.free[0]] == LinkTo(s.free, 1);
  }

  // ------------------------------------------------------------------- Exit

  lemma ExitFrame(s: State, p: Pid, val: int)
    requires Enabled(s, DoExit(p, val)) && 2 <= p
    ensures var r, q := Apply(s, DoExit(p, val)), s.parent[p];
            && r.pstate == s.pstate[p := ZOMBIE] && r.exitval == s.exitval[p := val] && r.mainThread == s.mainThread[p := false]
            && r.freelist == s.freelist && r.count == s.count && r.free == s.free
            && |r.wait| == |s.wait| && r.wait[p] == Running
            && (forall x | 0 <= x < |s.wait| && x != p ::
                  r.wait[x] == if x == q || (x == 1 && s.exited[p] != []) then Woken(s.wait[x]) else s.wait[x])
  {
    hide Forest, FreeOk, Ages, Waits, Filed, Adopt, Bury, CloseFiles, Streams.Shape;
    RunsFacts(s, p);
    InitAliveInv(s, p);
    var s1 := CloseFiles(s, p);
    CloseFilesKeeps(s, p);
    CloseFilesFrame(s, p);
    FinishExitKeeps(s, p, val);
    AdoptRest(s1, p);
    AdoptMoves(s1, p);
    BuryRest(Adopt(s1, p), p, val);
  }

  lemma AdoptRest(s: State, p: Pid)
    requires Sized(s) && 2 <= p < |s.pstate|
    ensures var r := Adopt(s, p);
            && Sized(r) && r.pstate == s.pstate && r.exitval == s.exitval && r.mainThread == s.mainThread
            && r.freelist == s.freelist && r.count == s.count && r.free == s.free
            && r.wait == (if s.exited[p] != [] then s.wait[1 := Woken(s.wait[1])] else s.wait)
  {
    hide Streams.Shape;
  }

  lemma BuryRest(s: State, p: Pid, val: int)
    requires Sized(s) && p < |s.pstate| && -1 <= s.parent[p] < |s.pstate| && s.birth[p] < |s.life|
    requires s.parent[p] != NOPROC && s.parent[p] != p
    ensures var r := Bury(s, p, val);
            && r.pstate == s.pstate[p := ZOMBIE] && r.exitval == s.exitval[p := val] && r.mainThread == s.mainThread[p := false]
            && r.freelist == s.freelist && r.count == s.count && r.free == s.free
            && r.wait == s.wait[s.parent[p] := Woken(s.wait[s.parent[p]])][p := Running]
  {
    hide Streams.Shape;
  }

  // --------------------------------------------- from the call to the answer

  /** Everybody but p stands where it stood, except that it may have been signalled. */
  predicate OthersStand(s: State, r: State, p: Pid) {
    |r.wait| == |s.wait| && forall q | 0 <= q < |s.wait| && q != p :: r.wait[q] == s.wait[q] || r.wait[q] == Woken(s.wait[q])
  }

  lemma ChildAnswerStands(s: State, p: Pid, c: Pid, r: State, ret: Answer)
    requires AnsweredForChild(s, p, c, r, ret)
    ensures OthersStand(s, r, p)
  {
  }

  lemma AnyAnswerStands(s: State, p: Pid, r: State, ret: Answer, asleep: Wait, after: Wait)
    requires AnsweredForAny(s, p, r, ret, asleep, after)
    ensures OthersStand(s, r, p)
  {
  }

  function Caller(a: Action): Pid {
    match a
    case InitLeaves => 1
    case File(c) => 0
    case _ => a.p
  }

  /** A step moves no process but its own. */
  lemma OthersWait(s: State, a: Action)
    requires Enabled(s, a)
    ensures OthersStand(s, Apply(s, a), Caller(a))
  {
    hide Inv, Guard, Perform, OthersStand, AnsweredForAny, AnsweredForChild, Refused;
    match a
    case DoExec(p, hasCall) => ExecStands(s, p, hasCall);
    case DoWaitChild(p, cpid) =>
      WaitChildEffect(s, p, cpid);
      var o := Perform(s, a);
      if Refused(s, p, cpid) {
        StandsSelf(s, p);
      } else if cpid == NOPROC {
        AnyAnswerStands(s, p, o.s, o.ret, ForAny(false), Running);
      } else {
        ChildAnswerStands(s, p, cpid, o.s, o.ret);
      }
    case WakeUp(p) =>
      WakeUpEffect(s, p);
      var o := Perform(s, a);
      if s.wait[p].ForChild? {
        ChildAnswerStands(s, p, s.wait[p].child, o.s, o.ret);
      } else {
        AnyAnswerStands(s, p, o.s, o.ret, ForAny(false), Running);
      }
    case DoExit(p, val) => ExitStands(s, p, val);
    case InitLeaves => InitLeavesStands(s);
    case File(c) => FileStands(s, c);
  }

  lemma StandsSelf(s: State, p: Pid)
    ensures OthersStand(s, s, p)
  {
  }

  lemma FileStands(s: State, c: Streams.Action)
    requires Enabled(s, File(c))
    ensures Apply(s, File(c)).wait == s.wait && OthersStand(s, Apply(s, File(c)), 0)
  {
    hide Inv, Streams.Apply;
  }

  lemma ExecStands(s: State, p: Pid, hasCall: bool)
    requires Enabled(s, DoExec(p, hasCall))
    ensures OthersStand(s, Apply(s, DoExec(p, hasCall)), p)
  {
    hide Inv, Perform;
    if s.freelist == NOPROC {
      ExecOnNone(s, p, hasCall);
    } else {
      ExecFrame(s, p, hasCall);
    }
  }

  lemma ExecOnNone(s: State, p: Pid, hasCall: bool)
    requires Enabled(s, DoExec(p, hasCall)) && s.freelist == NOPROC
    ensures Apply(s, DoExec(p, hasCall)) == s
  {
    hide Inv, Fork;
  }

  lemma ExitStands(s: State, p: Pid, val: int)
    requires Enabled(s, DoExit(p, val))
    ensures OthersStand(s, Apply(s, DoExit(p, val)), p)
  {
    hide Inv, Perform;
    CallerFacts(s, p);
    if p == 1 {
      InitBeginsToExit(s, val);
    } else {
      ExitFrame(s, p, val);
    }
  }

  lemma CallerFacts(s: State, p: Pid)
    requires Inv(s) && Runs(s, p)
    ensures 1 <= p < |s.wait| && |s.wait| == |s.pstate| && s.wait[p] == Running && s.pstate[p] == ALIVE
  {
    hide Forest, FreeOk, Ages, Waits, Filed;
    RunsFacts(s, p);
  }

  /** Exit by pid 1 only begins its loop. */
  lemma InitBeginsToExit(s: State, val: int)
    requires Enabled(s, DoExit(1, val))
    ensures Sleeps(s, Apply(s, DoExit(1, val)), 1, Leaving(val))
  {
    hide Inv, FinishExit;
  }

  lemma InitLeavesStands(s: State)
    requires Enabled(s, InitLeaves)
    ensures OthersStand(s, Apply(s, InitLeaves), 1)
  {
    hide Inv, Perform, AnsweredForAny;
    InitHasLists(s);
    if s.wait[1].Leaving? && s.children[1] == [] {
      InitExitStands(s);
    } else {
      InitLeavesEffect(s);
      var o := Perform(s, InitLeaves);
      AnyAnswerStands(s, 1, o.s, o.ret, LeavingWaits(s.wait[1].val, false), Leaving(s.wait[1].val));
    }
  }

  lemma InitHasLists(s: State)
    requires Inv(s)
    ensures 1 < |s.pstate| && |s.children| == |s.pstate| && |s.wait| == |s.pstate| && s.parent[1] == NOPROC
  {
    hide FreeOk, Ages, Waits, Filed;
  }

  lemma InitExitStands(s: State)
    requires Enabled(s, InitLeaves) && s.wait[1].Leaving? && 1 < |s.children| && s.children[1] == []
    ensures Apply(s, InitLeaves).wait == s.wait[1 := Running]
  {
    hide Forest, FreeOk, Ages, Waits, Filed, Adopt, CloseFiles, Streams.Shape;
    InitHasLists(s);
    Awake(s, 1);
    CloseFilesKeeps(s, 1);
    CloseFilesFrame(s, 1);
    ChildlessInit(CloseFiles(s, 1));
  }

  /** p is in WaitChild for its child c; or for any. */
  predicate WaitsFor(s: State, p: Pid, c: Pid) {
    p < |s.wait| && s.wait[p].ForChild? && s.wait[p].child == c
  }

  predicate WaitsForAny(s: State, p: Pid) {
    p < |s.wait| && s.wait[p].ForAny?
  }

  /** Init is in sys_Exit and will leave val. */
  predicate WillLeave(s: State, val: int) {
    1 < |s.wait| && ((s.wait[1].Leaving? && s.wait[1].val == val) || (s.wait[1].LeavingWaits? && s.wait[1].val == val))
  }

  /** Who sleeps in WaitChild or loops in sys_Exit takes no step but the next one there. */
  lemma OnlyItsOwn(s: State, a: Action, p: Pid)
    requires Enabled(s, a) && p < |s.wait| && s.wait[p] != Running && Caller(a) == p && !a.File?
    ensures if s.wait[p].ForChild? || s.wait[p].ForAny? then a == WakeUp(p) else a == InitLeaves
  {
    hide Inv;
  }

  lemma StillStands(s: State, a: Action, p: Pid)
    requires Enabled(s, a) && p < |s.wait| && s.wait[p] != Running && a != WakeUp(p) && (p == 1 ==> a != InitLeaves)
    ensures p < |Apply(s, a).wait| && (Apply(s, a).wait[p] == s.wait[p] || Apply(s, a).wait[p] == Woken(s.wait[p]))
  {
    hide Inv, Apply, Guard;
    if Caller(a) == p && !a.File? { OnlyItsOwn(s, a, p); }
    if a.File? { FileStands(s, a.call); }
    OthersWait(s, a);
  }

  /** It goes on waiting for that child until it finds it a zombie, and then answers with its value. */
  lemma WaitingStep(s: State, a: Action, p: Pid, c: Pid)
    requires Enabled(s, a) && WaitsFor(s, p, c)
    ensures c < |s.pstate| && c < |s.exitval|
    ensures if a == WakeUp(p) && s.pstate[c] == ZOMBIE
            then Perform(s, a).ret == Answered(c, Some(s.exitval[c])) && Collects(s, Apply(s, a), p, c, Running)
            else WaitsFor(Apply(s, a), p, c)
  {
    hide Inv, Perform, Guard, Collects;
    if Caller(a) == p && !a.File? { OnlyItsOwn(s, a, p); }
    if a == WakeUp(p) {
      WakeUpEffect(s, p);
    } else {
      ChildIsThere(s, p);
      StillStands(s, a, p);
    }
  }

  lemma ChildIsThere(s: State, p: Pid)
    requires Inv(s) && p < |s.wait| && s.wait[p].ForChild?
    ensures s.wait[p].child < |s.pstate| && |s.exitval| == |s.pstate|
  {
    hide Forest, FreeOk, Ages, Filed;
    assert WaitOk(s, p);
  }

  lemma WaitingForAnyStep(s: State, a: Action, p: Pid)
    requires Enabled(s, a) && WaitsForAny(s, p)
    ensures var o := Perform(s, a);
            if a == WakeUp(p) then AnsweredForAny(s, p, o.s, o.ret, ForAny(false), Running) && (!HasZombie(s, p) ==> WaitsForAny(o.s, p))
            else WaitsForAny(o.s, p)
  {
    hide Inv, Perform, Guard, HasZombie, Collects;
    if Caller(a) == p && !a.File? { OnlyItsOwn(s, a, p); }
    if a == WakeUp(p) {
      WakeUpEffect(s, p);
    } else {
      StillStands(s, a, p);
    }
  }

  /** Init keeps the value it was called with until it becomes a zombie with it. */
  lemma LeavingStep(s: State, a: Action, val: int)
    requires Enabled(s, a) && WillLeave(s, val)
    ensures var r := Apply(s, a);
            || WillLeave(r, val)
            || (a == InitLeaves && 1 < |r.pstate| && 1 < |r.exitval| && r.pstate[1] == ZOMBIE && r.exitval[1] == val)
  {
    hide Inv, Perform, Guard, HasZombie;
    if Caller(a) == 1 && !a.File? { OnlyItsOwn(s, a, 1); }
    if a == InitLeaves {
      InitHasLists(s);
      if s.wait[1].Leaving? && s.children[1] == [] {
        InitExits(s);
      } else {
        InitLeavesEffect(s);
      }
    } else {
      StillStands(s, a, 1);
    }
  }

  lemma BootRun(run: seq<State>, acts: seq<Action>, n: nat, files: nat, width: nat, k: nat)
    requires FromBoot(run, acts, n, files, width) && (k < |acts| || k + 1 < |run|)
    ensures k < |acts| && k + 1 < |run| && Enabled(run[k], acts[k]) && run[k + 1] == Apply(run[k], acts[k])
  {
    hide Inv, Guard, Apply, Booted;
    RunKeepsInv(run, acts, n, files, width, k);
    assert Step(run[k], acts[k], run[k + 1]);
  }

  /** Step k answers a WaitChild that p has begun before. */
  predicate FindsZombie(run: seq<State>, acts: seq<Action>, k: nat, p: Pid, c: Pid) {
    k < |acts| && k < |run| && acts[k] == WakeUp(p) && c < |run[k].pstate| && run[k].pstate[c] == ZOMBIE
  }

  lemma {:induction false} WaitsOn(run: seq<State>, acts: seq<Action>, n: nat, files: nat, width: nat, i: nat, j: nat, p: Pid, c: Pid)
    requires FromBoot(run, acts, n, files, width) && i <= j < |run| && WaitsFor(run[i], p, c)
    requires forall k | i <= k < j :: !FindsZombie(run, acts, k, p, c)
    ensures WaitsFor(run[j], p, c)
  {
    hide FromBoot, Inv, Guard, Apply, Perform, Enabled, WaitsFor, Collects;
    if i < j {
      WaitsOn(run, acts, n, files, width, i, j - 1, p, c);
      BootRun(run, acts, n, files, width, j - 1);
      assert !FindsZombie(run, acts, j - 1, p, c);
      WaitingStep(run[j - 1], acts[j - 1], p, c);
    }
  }

  /**
   * WaitChild(c) by p, called at step i for an own child that is still ALIVE: p sleeps until, at step j, it
   * is awake and finds c a zombie; then it answers c, with the value c has left, and the PCB of c is free.
   */
  lemma WaitChildReturns(run: seq<State>, acts: seq<Action>, n: nat, files: nat, width: nat, i: nat, j: nat, p: Pid, c: Pid)
    requires FromBoot(run, acts, n, files, width) && i < j < |acts| && acts[i] == DoWaitChild(p, c)
    requires !Refused(run[i], p, c) && c < |run[i].pstate| && run[i].pstate[c] == ALIVE
    requires FindsZombie(run, acts, j, p, c) && forall k | i < k < j :: !FindsZombie(run, acts, k, p, c)
    ensures forall k | i < k <= j :: WaitsFor(run[k], p, c)
    ensures Enabled(run[j], acts[j]) && c < |run[j].exitval|
    ensures Perform(run[j], acts[j]).ret == Answered(c, Some(run[j].exitval[c]))
    ensures j + 1 < |run| && Collects(run[j], run[j + 1], p, c, Running)
  {
    hide FromBoot, Inv, Guard, Perform, Refused, Collects;
    BootRun(run, acts, n, files, width, i);
    WaitChildEffect(run[i], p, c);
    assert WaitsFor(run[i + 1], p, c);
    hide Apply, Enabled, WaitsFor;
    forall k | i < k <= j ensures WaitsFor(run[k], p, c) {
      WaitsOn(run, acts, n, files, width, i + 1, k, p, c);
    }
    BootRun(run, acts, n, files, width, j);
    WaitingStep(run[j], acts[j], p, c);
    ApplyIs(run[j], acts[j]);
  }

  lemma ApplyIs(s: State, a: Action)
    requires Enabled(s, a)
    ensures Apply(s, a) == Perform(s, a).s
  {
    hide Inv, Perform, Guard;
  }

  /** Exit(val) by init, called at step i: whenever it has become a zombie, it is with that value. */
  lemma {:induction false} InitExitsWithItsValue(run: seq<State>, acts: seq<Action>, n: nat, files: nat, width: nat, i: nat, j: nat, val: int)
    requires FromBoot(run, acts, n, files, width) && i < j < |run| && acts[i] == DoExit(1, val)
    requires forall k | i < k < j :: 1 < |run[k].pstate| && run[k].pstate[1] == ALIVE
    ensures 1 < |run[j].pstate| && 1 < |run[j].exitval|
    ensures WillLeave(run[j], val) || (run[j].pstate[1] == ZOMBIE && run[j].exitval[1] == val)
  {
    hide FromBoot, Inv, Guard, Apply, Perform, Enabled, WillLeave;
    BootRun(run, acts, n, files, width, j - 1);
    if j == i + 1 {
      InitStartsToLeave(run[i], val);
    } else {
      InitExitsWithItsValue(run, acts, n, files, width, i, j - 1, val);
      LeavingStep(run[j - 1], acts[j - 1], val);
    }
    InvAfter(run, acts, n, files, width, j);
  }

  lemma InvAfter(run: seq<State>, acts: seq<Action>, n: nat, files: nat, width: nat, j: nat)
    requires FromBoot(run, acts, n, files, width) && j < |run|
    ensures 1 < |run[j].pstate| && 1 < |run[j].exitval|
  {
    hide Forest, FreeOk, Ages, Waits, Filed, IsRun;
    RunKeepsInv(run, acts, n, files, width, j);
    InitHasLists(run[j]);
  }

  lemma InitStartsToLeave(s: State, val: int)
    requires Enabled(s, DoExit(1, val))
    ensures WillLeave(Apply(s, DoExit(1, val)), val)
  {
    hide Inv, Perform, Guard;
    InitBeginsToExit(s, val);
  }

  // -------------------------------------------------------------- progress

  /** A living process with a thread can always take its next step. */
  lemma LivingProcessesMove(s: State, p: Pid, cpid: int, val: int, hasCall: bool)
    requires Inv(s) && p < |s.pstate| && s.mainThread[p]
    ensures s.pstate[p] == ALIVE
    ensures s.wait[p] == Running ==>
              Enabled(s, DoExec(p, hasCall)) && Enabled(s, DoWaitChild(p, cpid)) && Enabled(s, DoExit(p, val))
    ensures s.wait[p].ForChild? || s.wait[p].ForAny? ==> Enabled(s, WakeUp(p))
    ensures s.wait[p].Leaving? || s.wait[p].LeavingWaits? ==> p == 1 && Enabled(s, InitLeaves)
  {
    hide Forest, FreeOk, Ages, Filed, Streams.Shape;
    assert WaitOk(s, p);
  }
}
