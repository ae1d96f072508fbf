// What the scheduler's sections do to the threads and lists, at any point of any run, in terms of TCB
// fields, SCHED, TIMEOUT_LIST and CURTHREAD.

module SchedulerEffects {
  import opened Lists
  import opened Scheduler

  /** State k of a run from boot, and the step taken in it. */
  ghost predicate At(run: seq<State>, acts: seq<Action>, init: Tid, k: nat) {
    IsRun(run, acts) && Initial(run[0], init) && k < |acts|
  }

  lemma AtInv(run: seq<State>, acts: seq<Action>, init: Tid, k: nat)
    requires At(run, acts, init, k)
    ensures Inv(run[k]) && Enabled(run[k], acts[k]) && run[k + 1] == Apply(run[k], acts[k])
  {
    hide Inv, Initial, Enabled, Apply;
    RunKeepsInv(run, acts, init, k);
    assert Step(run[k], acts[k], run[k + 1]);
  }

  // ------------------------------------------------------------------- sleep

  /**
   * sleep_releasing leaves the thread in the state asked for; if that is STOPPED and there is a
   * timeout, with the deadline now + timeout and in TIMEOUT_LIST, and otherwise in no list. SCHED and
   * all other threads are as before.
   */
  ghost predicate AfterSleep(s: State, s': State, c: Core, state: ThreadState, timeout: nat, now: nat) {
    && c in s.cores && c in s'.cores
    && var t := s.cores[c].current; var timed := state == STOPPED && timeout != NO_TIMEOUT;
       && s'.cores[c].current == t && s'.cores[c].pc.Ceding? && t in s.tcb && t in s'.tcb
       && s'.tcb[t].state == state && (state == STOPPED || state == EXITED)
       && s'.tcb[t].wakeup == (if timed then now + timeout else NO_TIMEOUT)
       && t !in s.timeouts && (t in s'.timeouts <==> timed) && t !in s'.sched && s'.sched == s.sched
       && (forall u | u != t :: (u in s'.timeouts <==> u in s.timeouts) && (u in s'.tcb <==> u in s.tcb))
       && (forall u | u in s.tcb && u != t :: s'.tcb[u] == s.tcb[u])
  }

  lemma SleepDoes(run: seq<State>, acts: seq<Action>, init: Tid, k: nat)
    requires At(run, acts, init, k) && acts[k].ASleep?
    ensures AfterSleep(run[k], run[k + 1], acts[k].c, acts[k].state, acts[k].timeout, acts[k].now)
  {
    hide Inv, Initial, LockFree, Enabled, Apply, AfterSleep;
    AtInv(run, acts, init, k);
    SleepStep(run[k], acts[k].c, acts[k].state, acts[k].timeout, acts[k].now);
  }

  lemma SleepStep(s: State, c: Core, state: ThreadState, timeout: nat, now: nat)
    requires Inv(s) && Enabled(s, ASleep(c, state, timeout, now))
    ensures AfterSleep(s, Apply(s, ASleep(c, state, timeout, now)), c, state, timeout, now)
  {
    hide Inv, LockFree, Sleep, AfterSleep;
    SleepEffect(s, c, state, timeout, now);
  }

  lemma SleepEffect(s: State, c: Core, state: ThreadState, timeout: nat, now: nat)
    requires CanSleep(s, c, state, timeout, now)
    ensures s.cores[c].current in s.tcb && (forall t | t in s.timeouts :: t in s.tcb)
    ensures AfterSleep(s, Sleep(s, c, state, timeout, now), c, state, timeout, now)
  {
    hide Queues, InsertPos, Inv;
    SleepLists(s, c, state, timeout, now);
    TimersInTable(s);
    SleeperHasNoDeadline(s, c);
  }

  // ------------------------------------------------------------------- wakeup

  /** wakeup makes a STOPPED or INIT thread READY, without a deadline, and the last of SCHED if its context is clean; on any other thread it does nothing. */
  ghost predicate AfterWakeup(s: State, s': State, t: Tid) {
    && t in s.tcb && t in s'.tcb
    && if s.tcb[t].state == STOPPED || s.tcb[t].state == INIT then
         && s'.tcb[t].state == READY && s'.tcb[t].wakeup == NO_TIMEOUT && t !in s'.timeouts
         && s'.sched == (if s.tcb[t].phase == CTX_CLEAN then s.sched + [t] else s.sched)
         && (forall u | u != t :: (u in s'.timeouts <==> u in s.timeouts) && (u in s'.tcb <==> u in s.tcb))
         && (forall u | u in s.tcb && u != t :: s'.tcb[u] == s.tcb[u])
         && s'.cores == s.cores && s'.active == s.active
       else s' == s
  }

  lemma WakeupDoes(run: seq<State>, acts: seq<Action>, init: Tid, k: nat)
    requires At(run, acts, init, k) && acts[k].AWakeup?
    ensures AfterWakeup(run[k], run[k + 1], acts[k].t)
  {
    hide Inv, Initial, LockFree, Enabled, Apply, AfterWakeup;
    AtInv(run, acts, init, k);
    WakeupEffect(run[k], acts[k].c, acts[k].t);
  }

  lemma WakeupEffect(s: State, c: Core, t: Tid)
    requires Inv(s) && Enabled(s, AWakeup(c, t))
    ensures AfterWakeup(s, Apply(s, AWakeup(c, t)), t)
  {
    hide Inv, LockFree;
    TimersInTable(s);
    WithoutRemoves(s.timeouts, t);
    NoBadState(s, c, t);
    TimedHasDeadline(s, t);
  }

  lemma TimedHasDeadline(s: State, t: Tid)
    requires Inv(s) && t in s.tcb
    ensures t in s.timeouts <==> s.tcb[t].wakeup != NO_TIMEOUT
  {
    assert ThreadOk(s, t);
  }

  // --------------------------------------------------------------------- yield

  /** The threads a selection that reads the clock at `now` wakes. */
  predicate Fires(s: State, t: Tid, now: nat) {
    t in s.timeouts && t in s.tcb && s.tcb[t].wakeup <= now
  }

  /** The thread yield goes on with, when SCHED with those woken in it is `q`. */
  ghost predicate NextAfter(s: State, c: Core, q: seq<Tid>, n: Tid)
    requires c in s.cores && s.cores[c].current in s.tcb && c in s.idle
  {
    if q != [] then n == q[0]
    else if s.tcb[s.cores[c].current].state == RUNNING || s.tcb[s.cores[c].current].state == READY then n == s.cores[c].current
    else n == s.idle[c]
  }

  /**
   * yield: a thread that ran, or had been woken before it could leave, is READY; one that has exited
   * stays EXITED; one that is STOPPED stays so with its deadline, unless its timer fires now. The next
   * thread n is the head of SCHED with those woken now at its end; if there is none, the current thread
   * if it could go on, and else the core's idle thread. It is READY, linked to the current one, and
   * switched to unless it is the current one.
   */
  ghost predicate AfterYield(s: State, s': State, c: Core, now: nat, woken: seq<Tid>, n: Tid) {
    && c in s.cores && c in s'.cores && c in s.idle
    && s.cores[c].current in s.tcb && s.cores[c].current in s'.tcb && n in s'.tcb
    && LeavingThread(s, s', s.cores[c].current, now)
    && (forall u :: u in woken ==> Fires(s, u, now) && s.tcb[u].phase == CTX_CLEAN)
    && (forall u | Fires(s, u, now) && s.tcb[u].phase == CTX_CLEAN :: u in woken)
    && NextAfter(s, c, s.sched + woken, n) && s'.sched == (if s.sched + woken == [] then [] else (s.sched + woken)[1..])
    && s'.tcb[n].state == READY && s'.tcb[n].prev == s.cores[c].current && s'.tcb[s.cores[c].current].next == n
    && s'.cores[c].current == s.cores[c].current && s'.cores[c].pc == (if n == s.cores[c].current then Gaining else Switching(n))
    && (forall u | u in s.tcb && u != s.cores[c].current && u != n ::
         u in s'.tcb && s'.tcb[u].state == (if Fires(s, u, now) then READY else s.tcb[u].state))
  }

  /** What yield makes of the thread that calls it. */
  predicate LeavingThread(s: State, s': State, t: Tid, now: nat)
    requires t in s.tcb && t in s'.tcb
  {
    && s.tcb[t].state != INIT
    && (s.tcb[t].state == RUNNING || s.tcb[t].state == READY ==> s'.tcb[t].state == READY)
    && (s.tcb[t].state == EXITED ==> s'.tcb[t].state == EXITED)
    && (s.tcb[t].state == STOPPED ==> s'.tcb[t].state == if Fires(s, t, now) then READY else STOPPED)
    && s'.tcb[t].wakeup == (if Fires(s, t, now) then NO_TIMEOUT else s.tcb[t].wakeup)
    && s'.tcb[t].ttype == s.tcb[t].ttype && s'.tcb[t].phase == s.tcb[t].phase
  }

  lemma YieldDoes(run: seq<State>, acts: seq<Action>, init: Tid, k: nat) returns (woken: seq<Tid>, n: Tid)
    requires At(run, acts, init, k) && acts[k].AYield?
    ensures AfterYield(run[k], run[k + 1], acts[k].c, acts[k].now, woken, n)
  {
    hide Inv, Initial, LockFree, Enabled, Apply, AfterYield;
    AtInv(run, acts, init, k);
    woken, n := YieldStep(run[k], acts[k].c, acts[k].now);
  }

  lemma YieldStep(s: State, c: Core, now: nat) returns (woken: seq<Tid>, n: Tid)
    requires Inv(s) && Enabled(s, AYield(c, now))
    ensures AfterYield(s, Apply(s, AYield(c, now)), c, now, woken, n)
  {
    hide Inv, LockFree, Yield, AfterYield;
    woken, n := YieldEffect(s, c, now);
  }

  /** A running thread that is preempted, or yields, is READY afterwards. */
  lemma RunningThreadStaysReady(run: seq<State>, acts: seq<Action>, init: Tid, k: nat)
    requires At(run, acts, init, k) && acts[k].AYield? && acts[k].c in run[k].cores && run[k].cores[acts[k].c].pc.Exec?
    ensures var t := run[k].cores[acts[k].c].current;
            t in run[k].tcb && run[k].tcb[t].state == RUNNING && t in run[k + 1].tcb && run[k + 1].tcb[t].state == READY
  {
    hide Inv, LockFree, Yield;
    AtInv(run, acts, init, k);
    var woken, n := YieldDoes(run, acts, init, k);
    ExecRuns(run[k], acts[k].c);
  }

  lemma ExecRuns(s: State, c: Core)
    requires Inv(s) && c in s.cores && s.cores[c].pc.Exec?
    ensures s.cores[c].current in s.tcb && s.tcb[s.cores[c].current].state == RUNNING
  {
    assert CoreOk(s, c);
  }

  lemma YieldEffect(s: State, c: Core, now: nat) returns (woken: seq<Tid>, n: Tid)
    requires Inv(s) && c in s.cores && (s.cores[c].pc.Exec? || s.cores[c].pc.Ceding?)
    ensures AfterYield(s, Yield(s, c, now), c, now, woken, n)
  {
    hide Inv, Expire, Yield, Choosing, Choose;
    YieldIs(s, c, now);
    ExpireLeavesReady(s, c, now);
    var t, s1 := s.cores[c].current, Cede(s, c);
    ExpireKeeps(s1, now);
    IdleOf(s, c);
    woken := FiredAre(s, c, now);
    var s2, ready := Expire(s1, now), s1.tcb[t].state == READY;
    n := Chosen(s2, c, ready);
    ChoosingIs(s2, c, ready);
    ChooseEffect(s2, c, ready);
    FiredIsStopped(s, t, now);
    hide Cede;
    CedeIs(s, c);
    YieldAssembled(s, s1, s2, Yield(s, c, now), c, now, woken, n);
  }

  lemma CedeIs(s: State, c: Core)
    requires c in s.cores && s.cores[c].current in s.tcb
    ensures var s1, t := Cede(s, c), s.cores[c].current;
            && t in s1.tcb && s1.tcb == s.tcb[t := s1.tcb[t]]
            && s1.tcb[t] == (if s.tcb[t].state == RUNNING then s.tcb[t].(state := READY) else s.tcb[t])
  {
  }

  /** What Choose does, in fields. */
  lemma ChooseEffect(s: State, c: Core, ready: bool)
    requires Inv(s) && c in s.cores && s.cores[c].pc.Ceding? && s.cores[c].current in s.tcb
    requires if ready then s.tcb[s.cores[c].current].state == READY else s.tcb[s.cores[c].current].ttype.NORMAL_THREAD?
    ensures c in s.idle && Chosen(s, c, ready) in s.tcb && ChooseFields(s, Choose(s, c, ready), c, Chosen(s, c, ready))
  {
    hide Inv;
    ChosenOk(s, c, ready);
  }

  predicate ChooseFields(s: State, s': State, c: Core, n: Tid) {
    && c in s.cores && c in s'.cores && s.cores[c].current in s.tcb && n in s.tcb
    && var t := s.cores[c].current;
    && s'.tcb.Keys == s.tcb.Keys && s'.cores[c].current == t && s'.cores[c].pc == (if n == t then Gaining else Switching(n))
    && s'.sched == (if s.sched == [] then [] else s.sched[1..]) && s'.tcb[n].prev == t && s'.tcb[t].next == n
    && s.tcb[n].state == READY
    && (forall u | u in s.tcb :: s'.tcb[u].state == s.tcb[u].state && s'.tcb[u].wakeup == s.tcb[u].wakeup
          && s'.tcb[u].ttype == s.tcb[u].ttype && s'.tcb[u].phase == s.tcb[u].phase)
  }

  lemma FiredIsStopped(s: State, t: Tid, now: nat)
    requires Inv(s) && t in s.tcb
    ensures Fires(s, t, now) ==> s.tcb[t].state == STOPPED
  {
    assert ThreadOk(s, t);
  }

  lemma YieldAssembled(s: State, s1: State, s2: State, s': State, c: Core, now: nat, woken: seq<Tid>, n: Tid)
    requires c in s.cores && c in s.idle && s.cores[c].current in s.tcb && s.tcb[s.cores[c].current].state != INIT
    requires var t := s.cores[c].current;
             && t in s1.tcb && s1.tcb == s.tcb[t := s1.tcb[t]]
             && s1.tcb[t] == (if s.tcb[t].state == RUNNING then s.tcb[t].(state := READY) else s.tcb[t])
             && (Fires(s, t, now) ==> s.tcb[t].state == STOPPED)
             && c in s2.cores && s2.cores[c].current == t && c in s2.idle && s2.idle == s.idle
             && n == Chosen(s2, c, s1.tcb[t].state == READY)
    requires s2.sched == s.sched + woken
    requires forall u :: u in woken ==> Fires(s, u, now) && s.tcb[u].phase == CTX_CLEAN
    requires forall u | Fires(s, u, now) && s.tcb[u].phase == CTX_CLEAN :: u in woken
    requires forall u | u in s1.tcb :: u in s2.tcb && s2.tcb[u] ==
               if Fires(s, u, now) then s.tcb[u].(state := READY, wakeup := NO_TIMEOUT) else s1.tcb[u]
    requires ChooseFields(s2, s', c, n)
    ensures AfterYield(s, s', c, now, woken, n)
  {
  }

  lemma ChoosingIs(s: State, c: Core, ready: bool)
    requires Choosing(s, c, ready)
    ensures Inv(s) && c in s.cores && s.cores[c].pc.Ceding? && s.cores[c].current in s.tcb
    ensures if ready then s.tcb[s.cores[c].current].state == READY else s.tcb[s.cores[c].current].ttype.NORMAL_THREAD?
  {
  }

  lemma NoDeadlineFiring(s: State, t: Tid)
    requires Inv(s) && t in s.tcb && t in s.timeouts
    ensures s.tcb[t].state == STOPPED
  {
    assert ThreadOk(s, t);
  }

  /** What the timer loop does between the two halves of yield. */
  lemma FiredAre(s: State, c: Core, now: nat) returns (woken: seq<Tid>)
    requires Inv(s) && c in s.cores && s.cores[c].current in s.tcb && QueuesInTable(Cede(s, c)) && Inv(Cede(s, c))
    ensures var s2 := Expire(Cede(s, c), now);
            && s2.sched == s.sched + woken
            && (forall u :: u in woken ==> Fires(s, u, now) && s.tcb[u].phase == CTX_CLEAN)
            && (forall u | Fires(s, u, now) && s.tcb[u].phase == CTX_CLEAN :: u in woken)
            && (forall u | u in Cede(s, c).tcb :: u in s2.tcb && s2.tcb[u] ==
                 if Fires(s, u, now) then s.tcb[u].(state := READY, wakeup := NO_TIMEOUT) else Cede(s, c).tcb[u])
  {
    hide Inv, Expire, CleanOnes, Sorted;
    var s1 := Cede(s, c);
    CedeLeavesTimers(s, c);
    TimersSorted(s1);
    ExpireMeaning(s1, now);
    DueExact(s1.tcb, s1.timeouts, now);
    var m := Due(s1.tcb, s1.timeouts, now);
    assert s1.timeouts == s1.timeouts[..m] + s1.timeouts[m..];
    woken := CleanOnes(s1.tcb, s1.timeouts[..m]);
    CleanOnesAre(s1.tcb, s1.timeouts[..m]);
    assert forall u :: u in s1.timeouts[..m] <==> Fires(s, u, now);
  }

  lemma {:induction false} CleanOnesAre(tcb: map<Tid, Tcb>, q: seq<Tid>)
    requires forall t | t in q :: t in tcb
    ensures forall t :: t in CleanOnes(tcb, q) <==> t in q && tcb[t].phase == CTX_CLEAN
  {
    if q != [] {
      CleanOnesAre(tcb, q[1..]);
      assert q == [q[0]] + q[1..];
    }
  }

  // ---------------------------------------------------------------------- gain

  /**
   * gain: the thread switched to is RUNNING on a dirty context; if another one was left, its context is
   * clean, and it is the last of SCHED if it is READY and not an idle thread, freed if it has exited,
   * and otherwise on no list it was not on before.
   */
  ghost predicate AfterGain(s: State, s': State, c: Core) {
    && c in s.cores && c in s'.cores
    && var t := s.cores[c].current;
    && t in s.tcb && s.tcb[t].prev in s.tcb && t in s'.tcb
    && var p := s.tcb[t].prev;
    && s'.cores[c].current == t && s'.tcb[t].state == RUNNING && s'.tcb[t].phase == CTX_DIRTY
    && s'.timeouts == s.timeouts
    && (p == t ==> s'.cores[c].pc == Exec)
    && (p != t && s.tcb[p].state != EXITED ==>
         p in s'.tcb && s'.tcb[p].state == s.tcb[p].state && s'.tcb[p].wakeup == s.tcb[p].wakeup
         && s'.tcb[p].phase == CTX_CLEAN && s'.cores[c].pc == Exec)
    && (p != t && s.tcb[p].state == EXITED ==> p !in s'.tcb && s'.cores[c].pc == Releasing(p))
    && s'.sched == (if p != t && s.tcb[p].state == READY && s.tcb[p].ttype.NORMAL_THREAD? then s.sched + [p] else s.sched)
    && (forall u | u != t && u != p :: (u in s'.tcb <==> u in s.tcb) && (u in s.tcb ==> s'.tcb[u] == s.tcb[u]))
  }

  lemma GainDoes(run: seq<State>, acts: seq<Action>, init: Tid, k: nat)
    requires At(run, acts, init, k) && acts[k].AGain?
    ensures AfterGain(run[k], run[k + 1], acts[k].c)
  {
    hide Inv, Initial, LockFree, Enabled, Apply, AfterGain;
    AtInv(run, acts, init, k);
    GainStep(run[k], acts[k].c);
  }

  lemma GainStep(s: State, c: Core)
    requires Inv(s) && Enabled(s, AGain(c))
    ensures AfterGain(s, Apply(s, AGain(c)), c)
  {
    hide Inv, LockFree, Gain, AfterGain;
    GainEffect(s, c);
  }

  lemma GainEffect(s: State, c: Core)
    requires CanGain(s, c)
    ensures s.cores[c].current in s.tcb && s.tcb[s.cores[c].current].prev in s.tcb && AfterGain(s, Gain(s, c), c)
  {
    hide Inv, LockFree;
    GainOk(s, c);
    hide CanGain;
  }

  // ------------------------------------------------- from one section to another

  /** Another core's step leaves a core where it is, and the threads it has in hand as they are, but that it may wake one that is STOPPED. */
  lemma OthersLeave(s: State, a: Action, c: Core, t: Tid)
    requires Inv(s) && Enabled(s, a) && c in s.cores && a.c != c && t in s.tcb && s.tcb[t].holder == Some(c)
    ensures var s' := Apply(s, a);
            && c in s'.cores && s'.cores[c] == s.cores[c] && t in s'.tcb
            && (s'.tcb[t] == s.tcb[t] || (s.tcb[t].state == STOPPED && s'.tcb[t] == s.tcb[t].(state := READY, wakeup := NO_TIMEOUT)))
  {
    hide Inv, LockFree, Frame, Sleep, Gain, Yield, Move, Save, Load, Spawn, Count, Uncount;
    match a
    case ASpawn(d) =>
      SpawnFrame(s, d);
      FrameLeaves(s, Spawn(s, d), {s.cores[d].current, s.nextTid}, d, c, t);
      NextIsFresh(s);
    case ACount(d) =>
      CountFrame(s, d);
      BornUnheld(s, d);
      FrameLeaves(s, Count(s, d), {s.cores[d].current, s.cores[d].pc.born}, d, c, t);
    case AWakeup(d, x) => HeldNotNew(s, t);
    case ASleep(d, state, timeout, now) =>
      TimersInTable(s);
      SleepFrame(s, d, state, timeout, now);
      FrameLeaves(s, Sleep(s, d, state, timeout, now), {s.cores[d].current}, d, c, t);
    case AYield(d, now) => YieldLeaves(s, d, now, c, t);
    case AGain(d) =>
      GainOk(s, d);
      GainFrame(s, d);
      FrameLeaves(s, Gain(s, d), {s.cores[d].current, s.tcb[s.cores[d].current].prev}, d, c, t);
    case AUncount(d) =>
      UncountFrame(s, d);
      DeadIsGone(s, d);
      FrameLeaves(s, Uncount(s, d), {s.cores[d].current, s.cores[d].pc.dead}, d, c, t);
    case ALeave(d) =>
      LeaveFrame(s, d);
      FrameLeaves(s, SetPc(s, d, Left), {s.cores[d].current}, d, c, t);
    case AMove(d) =>
      SwapFrame(s, Move(s, d), d);
      FrameLeaves(s, Move(s, d), {s.cores[d].current, Other(s, d)}, d, c, t);
    case ASave(d) =>
      InHand(s, d);
      SwapFrame(s, Save(s, d), d);
      FrameLeaves(s, Save(s, d), {s.cores[d].current, Other(s, d)}, d, c, t);
    case ALoad(d) =>
      InHand(s, d);
      SwapFrame(s, Load(s, d), d);
      FrameLeaves(s, Load(s, d), {s.cores[d].current, Other(s, d)}, d, c, t);
  }

  lemma FrameLeaves(s: State, s': State, changed: set<Tid>, d: Core, c: Core, t: Tid)
    requires Frame(s, s', changed, d) && c in s.cores && c != d && t in s.tcb && s.tcb[t].holder == Some(c)
    ensures c in s'.cores && s'.cores[c] == s.cores[c] && t in s'.tcb && s'.tcb[t] == s.tcb[t]
  {
  }

  lemma BornUnheld(s: State, d: Core)
    requires Inv(s) && d in s.cores && s.cores[d].pc.Spawning?
    ensures s.cores[d].pc.born in s.tcb && s.tcb[s.cores[d].pc.born].holder == None
  {
    HeldBy(s, d);
    assert BirthOk(s, d);
  }

  lemma DeadIsGone(s: State, d: Core)
    requires Inv(s) && d in s.cores && s.cores[d].pc.Releasing?
    ensures s.cores[d].pc.dead !in s.tcb
  {
    HeldBy(s, d);
    assert DeathOk(s, d);
  }

  lemma HeldNotNew(s: State, t: Tid)
    requires Inv(s) && t in s.tcb && s.tcb[t].holder.Some?
    ensures s.tcb[t].state != INIT && s.tcb[t].holder.value in s.cores
  {
    assert ThreadOk(s, t);
  }

  lemma YieldLeaves(s: State, d: Core, now: nat, c: Core, t: Tid)
    requires Inv(s) && d in s.cores && (s.cores[d].pc.Exec? || s.cores[d].pc.Ceding?)
    requires c in s.cores && c != d && t in s.tcb && s.tcb[t].holder == Some(c)
    ensures var s' := Yield(s, d, now);
            && c in s'.cores && s'.cores[c] == s.cores[c] && t in s'.tcb
            && (s'.tcb[t] == s.tcb[t] || (s.tcb[t].state == STOPPED && s'.tcb[t] == s.tcb[t].(state := READY, wakeup := NO_TIMEOUT)))
  {
    hide Inv, Frame, Expire, Yield, Choose, Choosing;
    YieldIs(s, d, now);
    var s1 := Cede(s, d);
    ExpireLeavesReady(s, d, now);
    ExpireKeeps(s1, now);
    HeldBy(s, d);
    var woken := FiredAre(s, d, now);
    var s2 := Expire(s1, now);
    if Fires(s, t, now) { NoDeadlineFiring(s, t); }
    ChooseFrame(s2, d, s1.tcb[s.cores[d].current].state == READY);
    FrameLeaves(s2, Yield(s, d, now), {s2.cores[d].current, Chosen(s2, d, s1.tcb[s.cores[d].current].state == READY)}, d, c, t);
  }

  /** Core c is on its way from t to n: CURTHREAD not yet moved, or the contexts being swapped, or about to gain. */
  ghost predicate OnTheWay(s: State, c: Core, t: Tid, n: Tid) {
    && c in s.cores && t in s.tcb && n in s.tcb && s.tcb[t].holder == Some(c) && s.tcb[n].holder == Some(c)
    && s.tcb[n].prev == t
    && match s.cores[c].pc
       case Switching(to) => s.cores[c].current == t && to == n
       case Saving(from) => s.cores[c].current == n && from == t
       case Loading(from) => s.cores[c].current == n && from == t
       case Gaining => s.cores[c].current == n
       case _ => false
  }

  /** What becomes of a thread's state while it waits for another core: only a STOPPED one changes, to READY. */
  predicate MayWake(before: ThreadState, after: ThreadState) {
    after == before || (before == STOPPED && after == READY)
  }

  lemma WayGoesOn(s: State, a: Action, c: Core, t: Tid, n: Tid)
    requires Inv(s) && Enabled(s, a) && OnTheWay(s, c, t, n) && a != AGain(c)
    ensures OnTheWay(Apply(s, a), c, t, n) && MayWake(s.tcb[t].state, Apply(s, a).tcb[t].state)
    ensures Apply(s, a).tcb[t].ttype == s.tcb[t].ttype
  {
    hide Inv, LockFree;
    if a.c != c {
      hide Apply, Enabled;
      OthersLeave(s, a, c, t);
      OthersLeave(s, a, c, n);
    } else {
      OwnWayStep(s, a, c, t, n);
    }
  }

  lemma OwnWayStep(s: State, a: Action, c: Core, t: Tid, n: Tid)
    requires Inv(s) && Enabled(s, a) && OnTheWay(s, c, t, n) && a != AGain(c) && a.c == c
    ensures OnTheWay(Apply(s, a), c, t, n) && Apply(s, a).tcb[t].state == s.tcb[t].state && Apply(s, a).tcb[t].ttype == s.tcb[t].ttype
  {
    hide Inv, LockFree, Spawn, Sleep, Yield, Gain, Count, Uncount, MakeReady;
  }

  /** A yield sets the core on its way to the thread it has chosen. */
  lemma YieldSetsOut(s: State, s': State, c: Core, now: nat, woken: seq<Tid>, n: Tid)
    requires Inv(s') && AfterYield(s, s', c, now, woken, n)
    ensures s.cores[c].current in s.tcb && s.cores[c].current in s'.tcb && OnTheWay(s', c, s.cores[c].current, n)
  {
    hide Inv;
    HeldBy(s', c);
  }

  lemma {:induction false} WayLeadsOn(run: seq<State>, acts: seq<Action>, init: Tid, i: nat, j: nat, c: Core, t: Tid, n: Tid)
    requires IsRun(run, acts) && Initial(run[0], init) && i <= j < |run| && OnTheWay(run[i], c, t, n)
    requires forall k | i <= k < j :: acts[k] != AGain(c)
    ensures OnTheWay(run[j], c, t, n) && MayWake(run[i].tcb[t].state, run[j].tcb[t].state) && run[j].tcb[t].ttype == run[i].tcb[t].ttype
  {
    hide Inv, Initial, Enabled, Apply, OnTheWay;
    if i < j {
      WayLeadsOn(run, acts, init, i, j - 1, c, t, n);
      AtInv(run, acts, init, j - 1);
      InTable(run[j - 1], c, t, n);
      WayGoesOn(run[j - 1], acts[j - 1], c, t, n);
    }
    InTable(run[j], c, t, n);
    InTable(run[i], c, t, n);
  }

  lemma InTable(s: State, c: Core, t: Tid, n: Tid)
    requires OnTheWay(s, c, t, n)
    ensures t in s.tcb && n in s.tcb && c in s.cores
  {
  }

  /**
   * What a thread t finds itself to be when the core that it yielded on, as s was, has gained another
   * thread, from e to e'. If it ran or was READY, and is no idle thread, it is the last of SCHED; if it
   * had exited, it is freed; if it was STOPPED, it is asleep and was not put on SCHED, or it has been
   * woken meanwhile and is the last of SCHED.
   */
  ghost predicate LeftBehind(s: State, e: State, e': State, t: Tid) {
    && t in s.tcb && t in e.tcb
    && match s.tcb[t].state
       case EXITED => t !in e'.tcb && e'.sched == e.sched
       case STOPPED =>
         && t in e'.tcb && (e'.tcb[t].state == STOPPED || e'.tcb[t].state == READY)
         && e'.sched == if e'.tcb[t].state == READY then e.sched + [t] else e.sched
       case INIT => false
       case _ => t in e'.tcb && e'.tcb[t].state == READY && e'.sched == if s.tcb[t].ttype.NORMAL_THREAD? then e.sched + [t] else e.sched
  }

  /**
   * From a yield of core c, at state i, to the gain that ends it, at state j: the thread n that the
   * yield has chosen runs on c, and if it is another one, t is left behind.
   */
  lemma YieldThenGain(run: seq<State>, acts: seq<Action>, init: Tid, i: nat, j: nat, c: Core) returns (woken: seq<Tid>, n: Tid)
    requires At(run, acts, init, i) && At(run, acts, init, j) && i < j && acts[i].AYield? && acts[i].c == c && acts[j] == AGain(c)
    requires forall k | i < k < j :: acts[k] != AGain(c)
    ensures AfterYield(run[i], run[i + 1], c, acts[i].now, woken, n)
    ensures c in run[i].cores && c in run[j + 1].cores && run[j + 1].cores[c].current == n
    ensures n in run[j + 1].tcb && run[j + 1].tcb[n].state == RUNNING
    ensures n != run[i].cores[c].current ==> LeftBehind(run[i], run[j], run[j + 1], run[i].cores[c].current)
  {
    hide Inv, Initial, LockFree, AfterYield, AfterGain, OnTheWay, LeftBehind, Enabled, Apply;
    woken, n := YieldDoes(run, acts, init, i);
    RunKeepsInv(run, acts, init, i + 1);
    YieldSetsOut(run[i], run[i + 1], c, acts[i].now, woken, n);
    var t := YielderIn(run[i], run[i + 1], c, acts[i].now, woken, n);
    WayLeadsOn(run, acts, init, i + 1, j, c, t, n);
    GainDoes(run, acts, init, j);
    StoppedAreNormal(run, acts, init, i, t);
    InTable(run[j], c, t, n);
    GainIsDue(run, acts, init, j);
    WayEnds(run[i], run[i + 1], run[j], run[j + 1], c, t, n, acts[i].now, woken);
  }

  lemma YielderIn(s: State, s': State, c: Core, now: nat, woken: seq<Tid>, n: Tid) returns (t: Tid)
    requires AfterYield(s, s', c, now, woken, n)
    ensures c in s.cores && t == s.cores[c].current && t in s.tcb && t in s'.tcb && LeavingThread(s, s', t, now)
  {
    t := s.cores[c].current;
  }

  lemma GainIsDue(run: seq<State>, acts: seq<Action>, init: Tid, j: nat)
    requires At(run, acts, init, j) && acts[j].AGain?
    ensures acts[j].c in run[j].cores && run[j].cores[acts[j].c].pc.Gaining?
  {
    hide Inv, Initial, Apply;
    AtInv(run, acts, init, j);
  }

  /** Only normal threads sleep or exit. */
  lemma StoppedAreNormal(run: seq<State>, acts: seq<Action>, init: Tid, k: nat, t: Tid)
    requires At(run, acts, init, k) && t in run[k].tcb
    ensures run[k].tcb[t].state == STOPPED || run[k].tcb[t].state == EXITED ==> run[k].tcb[t].ttype.NORMAL_THREAD?
  {
    RunKeepsInv(run, acts, init, k);
    assert ThreadOk(run[k], t);
  }

  lemma WayEnds(s: State, s': State, e: State, e': State, c: Core, t: Tid, n: Tid, now: nat, woken: seq<Tid>)
    requires t in s.tcb && t in s'.tcb && LeavingThread(s, s', t, now)
    requires OnTheWay(e, c, t, n) && e.cores[c].pc.Gaining? && MayWake(s'.tcb[t].state, e.tcb[t].state) && e.tcb[t].ttype == s'.tcb[t].ttype
    requires AfterGain(e, e', c)
    requires s.tcb[t].state == STOPPED || s.tcb[t].state == EXITED ==> s.tcb[t].ttype.NORMAL_THREAD?
    ensures c in e'.cores && e'.cores[c].current == n && n in e'.tcb && e'.tcb[n].state == RUNNING
    ensures n != t ==> LeftBehind(s, e, e', t)
  {
  }

  /**
   * The steps outside the lock. spawn_thread makes a new INIT thread and then counts it; a freed thread
   * is uncounted; a switch moves CURTHREAD, saves the old context, loads the new one; and a core may leave.
   */
  ghost predicate SmallStep(s: State, s': State, a: Action) {
    && a.c in s.cores && a.c in s'.cores && s.cores[a.c].current in s.tcb
    && s'.sched == s.sched && s'.timeouts == s.timeouts
    && var k, k' := s.cores[a.c], s'.cores[a.c];
    && (forall d | d in s.cores && d != a.c :: d in s'.cores && s'.cores[d] == s.cores[d])
    && (a.ASpawn? ==>
         && k'.pc.Spawning? && k'.current == k.current && s'.active == s.active
         && k'.pc.born !in s.tcb && k'.pc.born in s'.tcb && s'.tcb == s.tcb[k'.pc.born := s'.tcb[k'.pc.born]]
         && k'.pc.born < s'.nextTid && s'.tcb[k'.pc.born].saved
         && s'.tcb[k'.pc.born].state == INIT && s'.tcb[k'.pc.born].ttype == NORMAL_THREAD)
    && (a.ACount? ==> k.pc.Spawning? && k' == k.(pc := Exec) && s'.active == s.active + 1 && k.pc.born in s'.counted && s'.tcb == s.tcb)
    && (a.AUncount? ==> k.pc.Releasing? && k' == k.(pc := Exec) && s'.active == s.active - 1 && k.pc.dead !in s'.counted && s'.tcb == s.tcb)
    && (a.AMove? ==> k.pc.Switching? && k' == CoreState(k.pc.to, Saving(k.current)) && s'.tcb == s.tcb)
    && (a.ASave? ==>
         && k.pc.Saving? && k' == k.(pc := Loading(k.pc.from)) && k.pc.from in s.tcb && !s.tcb[k.pc.from].saved
         && s'.tcb == s.tcb[k.pc.from := s.tcb[k.pc.from].(saved := true)])
    && (a.ALoad? ==>
         && k.pc.Loading? && k' == k.(pc := Gaining) && s.tcb[k.current].saved
         && s'.tcb == s.tcb[k.current := s.tcb[k.current].(saved := false)])
    && (a.ALeave? ==> s.tcb[k.current].ttype.IDLE_THREAD? && k' == k.(pc := Left) && s'.tcb == s.tcb)
  }

  lemma SmallStepsDo(run: seq<State>, acts: seq<Action>, init: Tid, k: nat)
    requires At(run, acts, init, k) && !acts[k].AWakeup? && !acts[k].ASleep? && !acts[k].AYield? && !acts[k].AGain?
    ensures SmallStep(run[k], run[k + 1], acts[k])
  {
    hide Inv, Initial, LockFree, Enabled, Apply, SmallStep;
    AtInv(run, acts, init, k);
    SmallStepEffect(run[k], acts[k]);
  }

  lemma SmallStepEffect(s: State, a: Action)
    requires Inv(s) && Enabled(s, a) && !a.AWakeup? && !a.ASleep? && !a.AYield? && !a.AGain?
    ensures SmallStep(s, Apply(s, a), a)
  {
    hide Queues, Counts, ThreadOk, LockFree;
    assert CoreOk(s, a.c);
    NextIsFresh(s);
    hide Inv;
  }

  // ------------------------------------------------------------------ progress

  /** In every reachable state with sched_spinlock free, each core that has not left the scheduler can take a step. */
  lemma NoCoreIsStuck(s: State, c: Core, now: nat) returns (a: Action)
    requires Reachable(s) && LockFree(s) && c in s.cores && s.cores[c].pc != Left
    ensures a.c == c && Enabled(s, a)
    ensures s.cores[c].pc.Exec? || s.cores[c].pc.Ceding? ==> a == AYield(c, now)
  {
    a := match s.cores[c].pc
      case Exec => AYield(c, now)
      case Ceding => AYield(c, now)
      case Switching(_) => AMove(c)
      case Saving(_) => ASave(c)
      case Loading(_) => ALoad(c)
      case Gaining => AGain(c)
      case Spawning(_) => ACount(c)
      case _ => AUncount(c);
  }

  /** And a running normal thread can spawn a thread, go to sleep with any timeout that fits, exit, and wake any thread that was spawned. */
  lemma RunningThreadsMayDoAll(s: State, c: Core, timeout: nat, now: nat, t: Tid)
    requires Reachable(s) && LockFree(s) && c in s.cores && s.cores[c].pc.Exec?
    requires s.cores[c].current in s.tcb && s.tcb[s.cores[c].current].ttype.NORMAL_THREAD?
    requires timeout != NO_TIMEOUT ==> now + timeout < NO_TIMEOUT
    ensures Enabled(s, ASpawn(c)) && Enabled(s, ASleep(c, STOPPED, timeout, now)) && Enabled(s, ASleep(c, EXITED, timeout, now))
    ensures t in s.tcb && t in s.counted ==> Enabled(s, AWakeup(c, t))
  {
    ReachableInv(s);
  }
}
