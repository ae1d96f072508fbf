// Pieces of kernel_cc.c in place, each between two points where another thread can interfere: the end
// of cv_wait, the wakeup in cv_signal, and the two updates of kernel_sem. They change the fields that
// all threads share and are proved to be steps of `CondVars` and `KernelSem`. What the code does to the
// ring of waiters, with its loops, is in `CondVarRings`.

module CondVarKernel {
  import opened Lists
  import opened CondVars
  import opened KernelSem

  class Monitors {
    var thr: map<Tid, Thread>
    var waitset: map<Cv, seq<Tid>>
    var waitsetLock: map<Cv, Option<Tid>>
    var mutex: map<Mx, Option<Tid>>
    var kernelSem: int
    var k: map<Tid, KPc>
    ghost var holder: Option<Tid>

    ghost function View(): State
      reads this
    {
      State(thr, waitset, waitsetLock, mutex)
    }

    ghost function KView(): KState
      reads this
    {
      KState(View(), kernelSem, k, holder)
    }

    /** All mutexes and condition variables as MUTEX_INIT and COND_INIT leave them. */
    constructor Init(threads: set<Tid>, cvs: set<Cv>, mxs: set<Mx>)
      ensures KInitial(KView()) && KInv(KView())
    {
      thr := map t | t in threads :: Thread(Client, false, false, false, NotWoken, false);
      waitset := map cv | cv in cvs :: [];
      waitsetLock := map cv | cv in cvs :: None;
      mutex := map m | m in mxs :: None;
      kernelSem := 1;
      k := map t | t in threads :: Outside;
      holder := None;
      new;
      assert KInitial(KView());
    }

    /** The tidying up after the sleep: a waiter nobody removed removes itself. */
    method Tidy(t: Tid)
      requires Inv(View()) && CanWaitStep(View(), t) && thr[t].pc.wait == Tidying
      modifies this`thr, this`waitset
      ensures View() == WaitStep(old(View()), t)
      ensures forall cv | cv in waitset :: t !in waitset[cv]
    {
      TidyAssertHolds(View(), t);
      WaitKeeps(View(), t);
      var x := thr[t];
      if !x.removed {
        assert !x.signalled;
        waitset := waitset[x.pc.wcv := Without(waitset[x.pc.wcv], t)];
      }
      thr := thr[t := x.(pc := x.pc.(wait := Leaving))];
      hide PlaceOk, WaiterOk, SignallerOk, CvOk;
      forall cv | cv in waitset ensures t !in waitset[cv] {
        if t in waitset[cv] {
          RingOnce(View(), t, cv);
        }
      }
    }

    /** The end of cv_wait: unlock waitset_lock, then lock the mutex and return. */
    method Return(t: Tid) returns (signalled: bool)
      requires Inv(View()) && CanWaitStep(View(), t) && (thr[t].pc.wait == Leaving || thr[t].pc.wait == Relocking)
      modifies this`thr, this`waitsetLock, this`mutex
      ensures View() == WaitStep(old(View()), t)
      ensures old(thr[t].pc.wait == Relocking) ==>
                thr[t].pc == Client && mutex[old(thr[t].pc.m)] == Some(t) && (signalled <==> old(thr[t].cause) == BySignal)
    {
      var x := thr[t];
      signalled := x.signalled;
      if x.pc.wait == Leaving {
        waitsetLock := waitsetLock[x.pc.wcv := None];
        thr := thr[t := x.(pc := x.pc.(wait := Relocking))];
      } else {
        WaitReturns(View(), t);
        mutex := mutex[x.pc.m := Some(t)];
        thr := thr[t := x.(pc := Client, result := signalled)];
      }
    }

    /** wakeup(waiter->thread), and then `signalled = 1`. */
    method SignalWake(t: Tid)
      requires Inv(View()) && CanSignalStep(View(), t) && (thr[t].pc.sig.Waking? || thr[t].pc.sig.Marking?)
      modifies this`thr
      ensures View() == SignalStep(old(View()), t)
      ensures var w := old(thr[t].pc.sig.w); w in thr && SleepsOn(thr[w], old(thr[t].pc.scv))
    {
      SignallerWritesLiveWaiter(View(), t);
      hide Inv;
      var pc := thr[t].pc;
      var w := pc.sig.w;
      if pc.sig.Waking? {
        if thr[w].stopped {
          thr := thr[t := thr[t].(pc := pc.(sig := Marking(w)))];
          thr := thr[w := thr[w].(stopped := false, cause := BySignal)];
        } else {
          thr := thr[t := thr[t].(pc := pc.(sig := Looking))];
        }
      } else {
        thr := thr[t := thr[t].(pc := pc.(sig := if pc.all then Looking else Closing(Some(w))))];
        thr := thr[w := thr[w].(signalled := true)];
      }
    }

    /** kernel_lock's loop, once kernel_mutex is locked: Cond_Wait, or kernel_sem--. */
    method CheckKernelSem(t: Tid) returns (acquired: bool)
      requires KInv(KView()) && KEnabled(KView(), KCheck(t))
      modifies this`thr, this`kernelSem, this`k, this`holder
      ensures KView() == KApply(old(KView()), KCheck(t)) && KInv(KView())
      ensures acquired <==> old(kernelSem) == 1
      ensures acquired ==> Holders(KView()) == {t}
    {
      KStepKeepsInv(KView(), KCheck(t));
      hide Inv, NoneStranded, KThreadOk;
      acquired := kernelSem > 0;
      if kernelSem <= 0 {
        thr := thr[t := Thread(InWait(KERNEL_MUTEX, KERNEL_SEM_CV, Entering), false, false, false, NotWoken, thr[t].result)];
      } else {
        kernelSem := kernelSem - 1;
        k := k[t := Got];
        holder := Some(t);
        OneHolder(KView());
        assert t in Holders(KView());
      }
    }

    /** The release in kernel_unlock, kernel_wait and kernel_sleep: kernel_sem++ under kernel_mutex. */
    method RaiseKernelSem(t: Tid)
      requires KInv(KView()) && KEnabled(KView(), KDrop(t))
      modifies this`kernelSem, this`k, this`holder
      ensures KView() == KApply(old(KView()), KDrop(t)) && KInv(KView())
      ensures Holders(KView()) == {}
    {
      KStepKeepsInv(KView(), KDrop(t));
      hide Inv, NoneStranded;
      assert KThreadOk(KView(), t);
      kernelSem := kernelSem + 1;
      k := k[t := Dropped(k[t].after, Before)];
      holder := None;
      OneHolder(KView());
    }
  }
}
