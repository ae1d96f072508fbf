// kernel_sched.c in place: the globals of the scheduler as fields, each section with
// sched_spinlock held as a method, proved to be the step of the same name in `Scheduler`.

module SchedulerKernel {
  import opened Lists
  import opened Scheduler
  import opened SchedulerEffects

  class Kernel {
    var tcb: map<Tid, Tcb>
    var SCHED: seq<Tid>
    var TIMEOUT_LIST: seq<Tid>
    var cctx: map<Core, CoreState>
    const idle: map<Core, Tid>
    var activeThreads: int
    var nextTid: Tid
    ghost var counted: set<Tid>

    ghost function View(): State
      reads this
    {
      State(tcb, SCHED, TIMEOUT_LIST, cctx, idle, activeThreads, counted, nextTid)
    }

    /** run_scheduler on each of `n` cores, after the init process has been made. */
    constructor Boot(n: nat)
      ensures View() == BootState(n) && Inv(View())
    {
      var s := BootState(n);
      tcb := s.tcb;
      SCHED := s.sched;
      TIMEOUT_LIST := s.timeouts;
      cctx := s.cores;
      idle := s.idle;
      activeThreads := s.active;
      nextTid := s.nextTid;
      counted := s.counted;
      new;
      BootIsInitial(n);
      InitialInv(View(), n);
    }

    /** sched_register_timeout. */
    method SchedRegisterTimeout(t: Tid, timeout: nat, now: nat)
      requires t in tcb && t !in TIMEOUT_LIST && QueuesInTable(View())
      modifies this`tcb, this`TIMEOUT_LIST
      ensures timeout == NO_TIMEOUT ==> tcb == old(tcb) && TIMEOUT_LIST == old(TIMEOUT_LIST)
      ensures timeout != NO_TIMEOUT ==>
                var p := InsertPos(old(tcb), old(TIMEOUT_LIST), now + timeout);
                && tcb == old(tcb)[t := old(tcb)[t].(wakeup := now + timeout)]
                && TIMEOUT_LIST == old(TIMEOUT_LIST)[..p] + [t] + old(TIMEOUT_LIST)[p..]
    {
      if timeout != NO_TIMEOUT {
        ghost var p := InsertPos(tcb, TIMEOUT_LIST, now + timeout);
        var w := now + timeout;
        tcb := tcb[t := tcb[t].(wakeup := w)];
        var n := 0;
        // skip earlier entries
        while n < |TIMEOUT_LIST| && !(w < tcb[TIMEOUT_LIST[n]].wakeup)
          invariant 0 <= n <= p && tcb == old(tcb)[t := old(tcb)[t].(wakeup := w)] && TIMEOUT_LIST == old(TIMEOUT_LIST)
          invariant forall u | u in TIMEOUT_LIST :: u in tcb && tcb[u] == old(tcb)[u]
        {
          n := n + 1;
        }
        TIMEOUT_LIST := TIMEOUT_LIST[..n] + [t] + TIMEOUT_LIST[n..];
      }
    }

    /** sched_queue_add, without the hint to halted cores. */
    method SchedQueueAdd(t: Tid)
      requires t !in SCHED && t !in TIMEOUT_LIST  // its sched_node is a singleton
      modifies this`SCHED
      ensures SCHED == old(SCHED) + [t]
    {
      SCHED := SCHED + [t];
    }

    /** sched_make_ready. */
    method SchedMakeReady(t: Tid)
      requires Inv(View()) && t in tcb && t in counted && (tcb[t].state == STOPPED || tcb[t].state == INIT)
      modifies this`tcb, this`SCHED, this`TIMEOUT_LIST
      ensures View() == MakeReady(old(View()), t) && Inv(View())
    {
      hide Inv, Queues, ThreadOk, CoreOk, Counts;
      MakeReadyKeeps(View(), t);
      NotQueued(View(), t);
      TimersInTable(View());
      WithoutRemoves(TIMEOUT_LIST, t);
      if tcb[t].wakeup != NO_TIMEOUT {
        assert t in TIMEOUT_LIST;
        TIMEOUT_LIST := Without(TIMEOUT_LIST, t);
        tcb := tcb[t := tcb[t].(wakeup := NO_TIMEOUT)];
      }
      tcb := tcb[t := tcb[t].(state := READY)];
      if tcb[t].phase == CTX_CLEAN {
        SchedQueueAdd(t);
      }
    }

    /** sched_queue_select, and yield's choice when it finds SCHED empty. */
    method SchedQueueSelect(now: nat, current: Tid, currentReady: bool, c: Core) returns (next: Tid)
      requires Inv(View()) && c in idle && c in cctx && current == cctx[c].current
      modifies this`tcb, this`SCHED, this`TIMEOUT_LIST
      ensures var s := Expire(old(View()), now);
              && c in s.cores && c in s.idle && next == Chosen(s, c, currentReady)
              && View() == s.(sched := if s.sched == [] then [] else s.sched[1..])
    {
      hide Counts, ThreadOk, CoreOk;
      while TIMEOUT_LIST != []
        invariant Inv(View()) && Expire(View(), now) == Expire(old(View()), now)
        invariant cctx == old(cctx)
        decreases |TIMEOUT_LIST|
      {
        var t := TIMEOUT_LIST[0];
        if tcb[t].wakeup > now {
          break;
        }
        TimedIsStopped(View(), t);
        ExpireOne(View());
        SchedMakeReady(t);
      }
      assert View() == Expire(old(View()), now);
      if SCHED != [] {
        next := SCHED[0];
        SCHED := SCHED[1..];
      } else {
        next := if currentReady then current else idle[c];
      }
    }

    /** wakeup. */
    method Wakeup(c: Core, t: Tid) returns (ret: int)
      requires Inv(View()) && Enabled(View(), AWakeup(c, t))
      modifies this`tcb, this`SCHED, this`TIMEOUT_LIST
      ensures View() == Apply(old(View()), AWakeup(c, t)) && Inv(View())
      ensures ret == 1 <==> old(tcb[t].state == STOPPED || tcb[t].state == INIT)
      ensures ret == 1 ==> t in tcb && tcb[t].state == READY
      ensures ret != 1 ==> ret == 0 && View() == old(View())
      ensures AfterWakeup(old(View()), View(), t)
    {
      WakeupEffect(View(), c, t);
      ret := 0;
      if tcb[t].state == STOPPED || tcb[t].state == INIT {
        SchedMakeReady(t);
        ret := 1;
      }
    }

    /** The section of sleep_releasing. */
    method SleepReleasing(c: Core, state: ThreadState, timeout: nat, now: nat)
      requires Inv(View()) && Enabled(View(), ASleep(c, state, timeout, now))
      modifies this`tcb, this`TIMEOUT_LIST, this`cctx
      ensures View() == Apply(old(View()), ASleep(c, state, timeout, now)) && Inv(View())
      ensures AfterSleep(old(View()), View(), c, state, timeout, now)
    {
      hide Inv, Queues, ThreadOk, CoreOk, Counts, AfterSleep, LockFree;
      SleepStep(View(), c, state, timeout, now);
      StepKeepsInv(View(), ASleep(c, state, timeout, now));
      SleepLists(View(), c, state, timeout, now);
      TimersInTable(View());
      MarkAsleep(cctx[c].current, state, timeout, now);
      cctx := cctx[c := cctx[c].(pc := Ceding)];
    }

    /** The thread is marked and, unless it has exited, its timeout is registered. */
    method MarkAsleep(t: Tid, state: ThreadState, timeout: nat, now: nat)
      requires t in tcb && t !in TIMEOUT_LIST && QueuesInTable(View())
      modifies this`tcb, this`TIMEOUT_LIST
      ensures state != EXITED && timeout != NO_TIMEOUT ==>
                var p := InsertPos(old(tcb), old(TIMEOUT_LIST), now + timeout);
                && tcb == old(tcb)[t := old(tcb)[t].(state := state, wakeup := now + timeout)]
                && TIMEOUT_LIST == old(TIMEOUT_LIST)[..p] + [t] + old(TIMEOUT_LIST)[p..]
      ensures !(state != EXITED && timeout != NO_TIMEOUT) ==>
                tcb == old(tcb)[t := old(tcb)[t].(state := state)] && TIMEOUT_LIST == old(TIMEOUT_LIST)
    {
      hide QueuesInTable, InsertPos;
      tcb := tcb[t := tcb[t].(state := state)];
      if state != EXITED {
        StillInTable(old(View()), View(), t);
        InsertPosFrame(old(tcb), tcb, TIMEOUT_LIST, now + timeout);
        SchedRegisterTimeout(t, timeout, now);
      }
    }

    /** yield's section, up to the release of the lock. */
    method Yield(c: Core, now: nat) returns (ghost woken: seq<Tid>, ghost chosen: Tid)
      requires Inv(View()) && Enabled(View(), AYield(c, now))
      modifies this`tcb, this`SCHED, this`TIMEOUT_LIST, this`cctx
      ensures View() == Apply(old(View()), AYield(c, now)) && Inv(View())
      ensures AfterYield(old(View()), View(), c, now, woken, chosen)
    {
      hide Inv, Queues, ThreadOk, CoreOk, Counts, AfterYield, LockFree;
      woken, chosen := YieldStep(View(), c, now);
      StepKeepsInv(View(), AYield(c, now));
      YieldIs(View(), c, now);
      hide Expire, Cede;
      var current := cctx[c].current;
      var currentReady := CedeCurrent(c);
      var next := SchedQueueSelect(now, current, currentReady, c);
      Link(c, current, next);
    }

    /** yield's switch on the state of the current thread. */
    method CedeCurrent(c: Core) returns (currentReady: bool)
      requires c in cctx && cctx[c].current in tcb && tcb[cctx[c].current].state != INIT
      modifies this`tcb, this`cctx
      ensures View() == Cede(old(View()), c) && c in cctx && cctx[c].current == old(cctx[c].current)
      ensures currentReady <==> cctx[c].current in tcb && tcb[cctx[c].current].state == READY
    {
      var current := cctx[c].current;
      currentReady := false;
      match tcb[current].state {
        case RUNNING =>
          tcb := tcb[current := tcb[current].(state := READY)];
          currentReady := true;
        case READY =>
          currentReady := true;
        case INIT => assert false;  // the default branch
        case _ =>
      }
      cctx := cctx[c := cctx[c].(pc := Ceding)];
    }

    /** current->next = next; next->prev = current, and what comes after the section. */
    method Link(c: Core, current: Tid, next: Tid)
      requires c in cctx && current in tcb && next in tcb
      modifies this`tcb, this`cctx
      ensures var t1 := old(tcb)[current := old(tcb)[current].(next := next)];
              tcb == t1[next := t1[next].(prev := current, holder := Some(c))]
      ensures cctx == old(cctx)[c := old(cctx)[c].(pc := if next == current then Gaining else Switching(next))]
    {
      tcb := tcb[current := tcb[current].(next := next)];
      tcb := tcb[next := tcb[next].(prev := current, holder := Some(c))];
      cctx := cctx[c := cctx[c].(pc := if next == current then Gaining else Switching(next))];
    }

    /** yield after its section: CURTHREAD = next, and the two halves of cpu_swap_context. */
    method SwitchContext(c: Core, a: Action)
      requires Inv(View()) && Enabled(View(), a) && a.c == c && (a.AMove? || a.ASave? || a.ALoad?)
      modifies this`tcb, this`cctx
      ensures View() == Apply(old(View()), a) && Inv(View())
    {
      hide Inv, Queues, ThreadOk, CoreOk, Counts;
      StepKeepsInv(View(), a);
      InHand(View(), c);
      if a.ALoad? {
        LoadsSavedContext(View(), c);
      }
      var t := cctx[c].current;
      match cctx[c].pc {
        case Switching(to) => cctx := cctx[c := CoreState(to, Saving(t))];
        case Saving(from) =>
          tcb := tcb[from := tcb[from].(saved := true)];
          cctx := cctx[c := cctx[c].(pc := Loading(from))];
        case Loading(_) =>
          assert tcb[t].saved;
          tcb := tcb[t := tcb[t].(saved := false)];
          cctx := cctx[c := cctx[c].(pc := Gaining)];
      }
    }

    /** gain's section, up to the release of a TCB or of the lock. */
    method Gain(c: Core)
      requires Inv(View()) && Enabled(View(), AGain(c))
      modifies this`tcb, this`SCHED, this`cctx
      ensures View() == Apply(old(View()), AGain(c)) && Inv(View())
      ensures AfterGain(old(View()), View(), c)
    {
      hide Inv, Queues, ThreadOk, CoreOk, Counts, AfterGain, LockFree;
      GainStep(View(), c);
      StepKeepsInv(View(), AGain(c));
      GainOk(View(), c);
      var current := cctx[c].current;
      var prev := tcb[current].prev;
      tcb := tcb[current := tcb[current].(state := RUNNING, phase := CTX_DIRTY)];
      cctx := cctx[c := cctx[c].(pc := Exec)];
      if current != prev {
        tcb := tcb[prev := tcb[prev].(phase := CTX_CLEAN, holder := None)];
        match tcb[prev].state {
          case READY =>
            if tcb[prev].ttype.NORMAL_THREAD? {
              SCHED := SCHED + [prev];
            }
          case EXITED =>
            tcb := tcb - {prev};
            cctx := cctx[c := cctx[c].(pc := Releasing(prev))];
          case STOPPED =>
          case _ => assert false;  // the default branch
        }
      }
    }

    /** The increment in spawn_thread and the decrement in release_TCB, under active_threads_spinlock. */
    method CountThread(c: Core, a: Action)
      requires Inv(View()) && Enabled(View(), a) && a.c == c && (a.ACount? || a.AUncount?)
      modifies this`cctx, this`activeThreads, this`counted
      ensures View() == Apply(old(View()), a) && Inv(View())
    {
      hide Inv, Queues, ThreadOk, CoreOk, Counts;
      StepKeepsInv(View(), a);
      match cctx[c].pc {
        case Spawning(t) =>
          activeThreads := activeThreads + 1;
          counted := counted + {t};
        case Releasing(t) =>
          activeThreads := activeThreads - 1;
          counted := counted - {t};
      }
      cctx := cctx[c := cctx[c].(pc := Exec)];
    }

    /** spawn_thread, up to the counting. */
    method SpawnThread(c: Core) returns (t: Tid)
      requires Inv(View()) && Enabled(View(), ASpawn(c))
      modifies this`tcb, this`cctx, this`nextTid
      ensures View() == Apply(old(View()), ASpawn(c)) && Inv(View())
      ensures t !in old(tcb) && t in tcb && tcb[t].state == INIT
    {
      hide Inv, Queues, ThreadOk, CoreOk, Counts;
      StepKeepsInv(View(), ASpawn(c));
      NextIsFresh(View());
      t := nextTid;
      tcb := tcb[t := Tcb(NORMAL_THREAD, INIT, CTX_CLEAN, NO_TIMEOUT, 0, 0, true, None)];
      nextTid := t + 1;
      cctx := cctx[c := cctx[c].(pc := Spawning(t))];
    }

    /** idle_thread's loop condition: the core leaves the scheduler once no thread is active. */
    method IdleLeaves(c: Core)
      requires Inv(View()) && Enabled(View(), ALeave(c))
      modifies this`cctx
      ensures View() == Apply(old(View()), ALeave(c)) && Inv(View())
      ensures SCHED == [] && TIMEOUT_LIST == []
    {
      hide Inv, Queues, ThreadOk, CoreOk, Counts;
      StepKeepsInv(View(), ALeave(c));
      CleanShutdown(View(), c);
      cctx := cctx[c := cctx[c].(pc := Left)];
    }
  }

  lemma {:induction false} InsertPosFrame(tcb: map<Tid, Tcb>, tcb': map<Tid, Tcb>, q: seq<Tid>, deadline: nat)
    requires forall t | t in q :: t in tcb && t in tcb' && tcb'[t].wakeup == tcb[t].wakeup
    ensures InsertPos(tcb', q, deadline) == InsertPos(tcb, q, deadline)
  {
    if q != [] {
      InsertPosFrame(tcb, tcb', q[1..], deadline);
    }
  }

  lemma StillInTable(s: State, s': State, t: Tid)
    requires QueuesInTable(s) && t in s.tcb && t !in s.timeouts
    requires s'.sched == s.sched && s'.timeouts == s.timeouts
    requires forall u | u in s.tcb :: u in s'.tcb && (u != t ==> s'.tcb[u] == s.tcb[u])
    ensures QueuesInTable(s')
    ensures forall u | u in s.timeouts :: u in s.tcb && u in s'.tcb && s'.tcb[u].wakeup == s.tcb[u].wakeup
  {
  }
}
