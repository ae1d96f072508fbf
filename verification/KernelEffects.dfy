// What kernel_unlock, kernel_wait and kernel_sleep come to, told from the call, in any run: the
// semaphore is raised and signalled, and then the thread goes on as it asked.

module KernelEffects {
  import opened Lists
  import opened CondVars
  import opened KernelSem
  import opened CondVarEffects

  ghost predicate KAt(run: seq<KState>, acts: seq<KAction>, k: nat) {
    KIsRun(run, acts) && KInitial(run[0]) && k < |acts|
  }

  lemma KAtInv(run: seq<KState>, acts: seq<KAction>, k: nat)
    requires KAt(run, acts, k)
    ensures KInv(run[k]) && KEnabled(run[k], acts[k]) && run[k + 1] == KApply(run[k], acts[k]) && k + 1 < |run|
  {
    hide KInv, KInitial, KEnabled, KApply;
    KRunKeepsInv(run, acts, k);
    assert KEnabled(run[k], acts[k]);
  }

  // ------------------------------------------------------------ the release

  /** t is giving the kernel up, to go on with `after`. */
  predicate Releasing(s: KState, t: Tid, after: After) {
    t in s.k && (s.k[t] == Dropping(after) || (s.k[t].Dropped? && s.k[t].after == after))
  }

  /** kernel_sem has been raised since; and its Cond_Signal has been called. */
  predicate Raised(s: KState, t: Tid) {
    t in s.k && s.k[t].Dropped?
  }

  predicate Signalled(s: KState, t: Tid) {
    t in s.k && s.k[t].Dropped? && s.k[t].call != SignalCall.Before
  }

  lemma ReleasingStep(s: KState, a: KAction, t: Tid, after: After)
    requires KEnabled(s, a) && Releasing(s, t, after)
    ensures a != KAfter(t) ==> Releasing(KApply(s, a), t, after)
    ensures Raised(KApply(s, a), t) && !Raised(s, t) ==> a == KDrop(t)
    ensures Signalled(KApply(s, a), t) && !Signalled(s, t) ==> a == KSignal(t)
    ensures a == KAfter(t) ==> Raised(s, t) && Signalled(s, t)
    ensures Signalled(s, t) ==> Raised(s, t)
  {
    hide Enabled, Apply;
  }

  lemma ReleasingStarts(s: KState, t: Tid, after: After)
    requires KEnabled(s, KLeave(t, after))
    ensures var s' := KApply(s, KLeave(t, after)); Releasing(s', t, after) && !Raised(s', t) && !Signalled(s', t)
  {
  }

  /** The steps of the release: kernel_sem goes from 0 to 1, and its Cond_Signal is called. */
  lemma ReleaseStep(s: KState, a: KAction)
    requires KInv(s) && KEnabled(s, a) && (a.KDrop? || a.KSignal?)
    ensures var r := KApply(s, a);
            && (a.KDrop? ==> s.sem == 0 && r.sem == 1 && r.holder == None && Raised(r, a.t) && !Signalled(r, a.t) && r.cc == s.cc)
            && (a.KSignal? ==> Signalled(r, a.t) && Knocks(r.cc, a.t, KERNEL_SEM_CV, false) && r.sem == s.sem)
  {
    hide Inv, NoneStranded;
    assert KThreadOk(s, a.t);
  }

  /** The loop test in kernel_lock: with kernel_sem at 0 the thread waits for it, and otherwise it takes it. */
  lemma CheckStep(s: KState, t: Tid)
    requires KInv(s) && KEnabled(s, KCheck(t))
    ensures var r := KApply(s, KCheck(t));
            && t in r.k && t in r.cc.thr
            && if s.sem == 0 then
                 r.k[t] == Acquiring && WaitsIn(r, t, KERNEL_SEM_CV) && r.sem == 0 && r.holder == s.holder
               else
                 s.sem == 1 && r.k[t] == Got && r.cc == s.cc && r.sem == 0 && r.holder == Some(t)
  {
    hide Inv, NoneStranded;
    assert KThreadOk(s, t);
  }

  /** From kernel_unlock, kernel_wait or kernel_sleep, called at step i, up to what comes after it. */
  lemma {:induction false} ReleasingUntil(run: seq<KState>, acts: seq<KAction>, i: nat, j: nat, t: Tid, after: After)
      returns (d: nat, g: nat)
    requires KAt(run, acts, i) && acts[i] == KLeave(t, after) && i < j < |run| && (forall k | i < k < j :: acts[k] != KAfter(t))
    ensures Releasing(run[j], t, after)
    ensures Raised(run[j], t) ==> i < d < j && acts[d] == KDrop(t)
    ensures Signalled(run[j], t) ==> d < g < j && acts[g] == KSignal(t)
  {
    hide KInv, KInitial, KEnabled, KApply, Releasing, Raised, Signalled;
    if j == i + 1 {
      KAtInv(run, acts, i);
      ReleasingStarts(run[i], t, after);
      d, g := 0, 0;
    } else {
      d, g := ReleasingUntil(run, acts, i, j - 1, t, after);
      KAtInv(run, acts, j - 1);
      ReleasingStep(run[j - 1], acts[j - 1], t, after);
      if Raised(run[j], t) && !Raised(run[j - 1], t) { d := j - 1; }
      if Signalled(run[j], t) && !Signalled(run[j - 1], t) {
        assert acts[j - 1] == KSignal(t);
        SignalAfterRaise(run[j - 1], t);
        g := j - 1;
      }
    }
  }

  lemma SignalAfterRaise(s: KState, t: Tid)
    requires KEnabled(s, KSignal(t))
    ensures Raised(s, t)
  {
  }

  /** Where a thread is that goes on with `after`. */
  predicate GoesOn(s: KState, t: Tid, after: After) {
    && t in s.k && t in s.cc.thr
    && var pc := s.cc.thr[t].pc;
    match after
    case ToUser => pc == Client && s.k[t] == Outside
    case ToWait(cv) => pc == InWait(KERNEL_MUTEX, cv, Entering) && s.k[t] == Acquiring && HasKernelMutex(s, t)
    case ToExit => pc == Exited && s.k[t] == Gone
  }

  lemma AfterStep(s: KState, t: Tid, after: After)
    requires KInv(s) && KEnabled(s, KAfter(t)) && Releasing(s, t, after)
    ensures GoesOn(KApply(s, KAfter(t)), t, after) && s.sem == 1
    ensures after != ToWait(KERNEL_SEM_CV)
  {
    hide Inv, NoneStranded;
    assert KThreadOk(s, t);
  }

  /**
   * kernel_unlock, kernel_wait and kernel_sleep: called at step i, the thread first raises kernel_sem
   * and then signals it; and with its first KAfter, at step j, it goes on as it asked, nobody
   * having taken the kernel in between.
   */
  lemma LeaveDoes(run: seq<KState>, acts: seq<KAction>, i: nat, j: nat, t: Tid, after: After) returns (d: nat, g: nat)
    requires KAt(run, acts, i) && acts[i] == KLeave(t, after)
    requires i < j < |acts| && acts[j] == KAfter(t) && (forall k | i < k < j :: acts[k] != KAfter(t))
    ensures i < d < g < j && acts[d] == KDrop(t) && acts[g] == KSignal(t)
    ensures run[j].sem == 1 && GoesOn(run[j + 1], t, after)
  {
    hide KInv, KInitial, KEnabled, KApply, Releasing, Raised, Signalled, GoesOn;
    d, g := ReleasingUntil(run, acts, i, j, t, after);
    KAtInv(run, acts, j);
    ReleasingStep(run[j], acts[j], t, after);
    AfterStep(run[j], t, after);
  }

  // ------------------------------------------------------ taking it again

  /** Asleep or awake in the Cond_Wait of kernel_wait on cv. */
  predicate WaitsIn(s: KState, t: Tid, cv: Cv) {
    t in s.k && s.k[t] == Acquiring && Waits(s.cc, t, KERNEL_MUTEX, cv)
  }

  /** Back from it, about to look at kernel_sem, or in the semaphore's own Cond_Wait. */
  predicate Tries(s: KState, t: Tid) {
    t in s.k && s.k[t] == Acquiring && t in s.cc.thr
  }

  lemma AcquiringStep(s: KState, a: KAction, t: Tid)
    requires KInv(s) && KEnabled(s, a) && Tries(s, t)
    ensures || Tries(KApply(s, a), t)
            || (a == KCheck(t) && s.sem > 0 && KApply(s, a).holder == Some(t) && t in KApply(s, a).k && KApply(s, a).k[t] == Got)
  {
    hide Inv, NoneStranded, Enabled, Apply, KThreadOk;
    KFrameHolds(s, a);
  }

  lemma CheckerIsClient(s: KState, t: Tid)
    requires KEnabled(s, KCheck(t))
    ensures t in s.cc.thr && s.cc.thr[t].pc == Client
  {
  }

  /** While t is in kernel_wait on cv only its own step ends that, once something has made it READY. */
  lemma InKernelWaitStep(s: KState, a: KAction, t: Tid, cv: Cv)
    requires KInv(s) && KEnabled(s, a) && WaitsIn(s, t, cv)
    ensures || WaitsIn(KApply(s, a), t, cv)
            || (a == Inner(DoWait(t)) && s.cc.thr[t].cause != NotWoken && Tries(KApply(s, a), t) && KApply(s, a).cc.thr[t].pc == Client)
  {
    hide Inv, NoneStranded, Enabled, Apply, KThreadOk, Waits;
    InWaitIsNotClient(s, t, cv);
    InnerStep(s, a);
    if a == KCheck(t) { CheckerIsClient(s, t); }
    AcquiringStep(s, a, t);
    var b := InnerOf(s, a);
    if b.Some? {
      WaitingStep(s.cc, b.value, t, KERNEL_MUTEX, cv);
      if !Waits(KApply(s, a).cc, t, KERNEL_MUTEX, cv) {
        CauseAtReturn(s.cc, t);
        InnerIsDoWait(s, a, t);
      }
    }
  }

  lemma InWaitIsNotClient(s: KState, t: Tid, cv: Cv)
    requires Waits(s.cc, t, KERNEL_MUTEX, cv)
    ensures t in s.cc.thr && s.cc.thr[t].pc.InWait?
  {
  }

  lemma InnerIsDoWait(s: KState, a: KAction, t: Tid)
    requires KEnabled(s, a) && InnerOf(s, a) == Some(DoWait(t))
    ensures a == Inner(DoWait(t))
  {
  }

  /** The thread is on its way into the kernel and gets there only through the loop test of kernel_lock. */
  lemma {:induction false} EntersByChecking(run: seq<KState>, acts: seq<KAction>, i: nat, l: nat, t: Tid) returns (c: nat)
    requires KIsRun(run, acts) && KInitial(run[0]) && i <= l < |run| && Tries(run[i], t)
    ensures i <= c <= l && forall k | i <= k <= c :: Tries(run[k], t)
    ensures c < l ==> acts[c] == KCheck(t) && run[c].sem > 0 && run[c + 1].holder == Some(t) && t in run[c + 1].k && run[c + 1].k[t] == Got
  {
    hide KInv, KInitial, KEnabled, KApply, Tries;
    if i == l {
      c := i;
    } else {
      c := EntersByChecking(run, acts, i, l - 1, t);
      if c == l - 1 {
        KAtInv(run, acts, c);
        AcquiringStep(run[c], acts[c], t);
        if Tries(run[l], t) { c := l; }
      }
    }
  }

  /** The steps of kernel_lock: into its loop, kernel_mutex, and with the kernel taken out of it, kernel_mutex free again. */
  lemma LockStep(s: KState, a: KAction)
    requires KInv(s) && KEnabled(s, a) && (a.KLock? || a.KMutex? || a.KEnter?)
    ensures var t, r := a.t, KApply(s, a);
            && t in r.k && t in r.cc.thr && r.cc.thr[t].pc == Client
            && (a.KLock? ==> s.k[t] == Outside && r.k[t] == Acquiring && r.cc == s.cc)
            && (a.KMutex? ==> r.k[t] == s.k[t] && HasKernelMutex(r, t))
            && (a.KEnter? ==>
                 && s.k[t] == Got && s.holder == Some(t) && r.k[t] == Inside && r.holder == Some(t)
                 && KERNEL_MUTEX in r.cc.mutex && r.cc.mutex[KERNEL_MUTEX] == None)
  {
    hide Inv, NoneStranded;
    assert KThreadOk(s, a.t);
  }

  lemma {:induction false} GotUntil(run: seq<KState>, acts: seq<KAction>, i: nat, l: nat, t: Tid) returns (e: nat)
    requires KIsRun(run, acts) && KInitial(run[0]) && i <= l < |run| && t in run[i].k && run[i].k[t] == Got
    ensures i <= e <= l && (forall k | i <= k <= e :: t in run[k].k && run[k].k[t] == Got)
    ensures e < l ==> acts[e] == KEnter(t)
  {
    hide KInv, KInitial, KEnabled, KApply;
    if i == l {
      e := i;
    } else {
      e := GotUntil(run, acts, i, l - 1, t);
      if e == l - 1 {
        KAtInv(run, acts, e);
        GotStep(run[e], acts[e], t);
        if acts[e] != KEnter(t) { e := l; }
      }
    }
  }

  lemma GotStep(s: KState, a: KAction, t: Tid)
    requires KInv(s) && KEnabled(s, a) && t in s.k && s.k[t] == Got
    ensures a != KEnter(t) ==> t in KApply(s, a).k && KApply(s, a).k[t] == Got
  {
    hide Inv, NoneStranded, Enabled, Apply, KThreadOk;
    KFrameHolds(s, a);
  }

  /**
   * kernel_lock, called at step i, in a run in which t is inside the kernel at l: it found kernel_sem free
   * at step c and was the holder from then on, and at step e let go of kernel_mutex.
   */
  lemma KernelLockDoes(run: seq<KState>, acts: seq<KAction>, i: nat, l: nat, t: Tid) returns (c: nat, e: nat)
    requires KAt(run, acts, i) && acts[i] == KLock(t) && i < l < |run| && t in run[l].k && run[l].k[t] == Inside
    ensures i < c < e < l && acts[c] == KCheck(t) && run[c].sem > 0 && acts[e] == KEnter(t)
    ensures forall k | i < k <= c :: t in run[k].k && run[k].k[t] == Acquiring
    ensures forall k | c < k <= e :: t in run[k].k && run[k].k[t] == Got && run[k].holder == Some(t)
    ensures run[e + 1].holder == Some(t) && KERNEL_MUTEX in run[e + 1].cc.mutex && run[e + 1].cc.mutex[KERNEL_MUTEX] == None
  {
    hide KInv, KInitial, KEnabled, KApply, HasKernelMutex;
    KAtInv(run, acts, i);
    LockStep(run[i], acts[i]);
    c := EntersByChecking(run, acts, i + 1, l, t);
    e := GotUntil(run, acts, c + 1, l, t);
    KAtInv(run, acts, e);
    LockStep(run[e], acts[e]);
    forall k | c < k <= e ensures t in run[k].k && run[k].k[t] == Got && run[k].holder == Some(t) {
      KRunKeepsInv(run, acts, k);
      GotHolds(run[k], t);
    }
  }

  lemma GotHolds(s: KState, t: Tid)
    requires KInv(s) && t in s.k && s.k[t] == Got
    ensures s.holder == Some(t)
  {
    hide Inv, NoneStranded;
    assert KThreadOk(s, t);
  }

  /** From the start of the Cond_Wait in kernel_wait to its return. */
  lemma {:induction false} WaitsInUntil(run: seq<KState>, acts: seq<KAction>, i: nat, l: nat, t: Tid, cv: Cv) returns (r: nat)
    requires KIsRun(run, acts) && KInitial(run[0]) && i <= l < |run| && WaitsIn(run[i], t, cv)
    ensures i <= r <= l && forall k | i <= k <= r :: WaitsIn(run[k], t, cv)
    ensures r < l ==> acts[r] == Inner(DoWait(t)) && t in run[r].cc.thr && run[r].cc.thr[t].cause != NotWoken && Tries(run[r + 1], t)
  {
    hide KInv, KInitial, KEnabled, KApply, Tries, WaitsIn;
    if i == l {
      r := i;
    } else {
      r := WaitsInUntil(run, acts, i, l - 1, t, cv);
      if r == l - 1 {
        KAtInv(run, acts, r);
        WaitsInThread(run[r], t, cv);
        InKernelWaitStep(run[r], acts[r], t, cv);
        if WaitsIn(run[l], t, cv) { r := l; }
      }
    }
  }

  lemma WaitsInThread(s: KState, t: Tid, cv: Cv)
    requires WaitsIn(s, t, cv)
    ensures t in s.cc.thr
  {
  }

  /**
   * kernel_wait(cv), called at step i, in a run in which t is inside the kernel again at l: t raised the
   * semaphore, and waits on cv from j on; at r, woken meanwhile, it returns from the Cond_Wait; at c it
   * finds kernel_sem free and becomes the holder. From j until then it is neither inside nor outside.
   */
  lemma KernelWaitDoes(run: seq<KState>, acts: seq<KAction>, i: nat, j: nat, l: nat, t: Tid, cv: Cv) returns (r: nat, c: nat)
    requires KAt(run, acts, i) && acts[i] == KLeave(t, ToWait(cv))
    requires i < j < l < |run| && acts[j] == KAfter(t) && (forall k | i < k < j :: acts[k] != KAfter(t))
    requires t in run[l].k && (run[l].k[t] == Inside || run[l].k[t] == Outside)
    ensures j < r < c < l && (forall k | j < k <= r :: WaitsIn(run[k], t, cv)) && t in run[r].cc.thr && run[r].cc.thr[t].cause != NotWoken
    ensures acts[r] == Inner(DoWait(t)) && (forall k | r < k <= c :: Tries(run[k], t))
    ensures acts[c] == KCheck(t) && run[c].sem > 0 && run[c + 1].holder == Some(t)
  {
    hide KInv, KInitial, KEnabled, KApply, Tries, WaitsIn, GoesOn;
    var d, g := LeaveDoes(run, acts, i, j, t, ToWait(cv));
    EnteringWaits(run[j + 1], t, cv);
    r := WaitsInUntil(run, acts, j + 1, l, t, cv);
    if r == l {
      WaitsInNotYet(run[l], t, cv);
    }
    c := EntersByChecking(run, acts, r + 1, l, t);
    if c == l {
      TriesNotYet(run[l], t);
    }
  }

  lemma EnteringWaits(s: KState, t: Tid, cv: Cv)
    requires GoesOn(s, t, ToWait(cv))
    ensures WaitsIn(s, t, cv)
  {
  }

  lemma WaitsInNotYet(s: KState, t: Tid, cv: Cv)
    requires WaitsIn(s, t, cv)
    ensures t in s.k && s.k[t] == Acquiring
  {
  }

  lemma TriesNotYet(s: KState, t: Tid)
    requires Tries(s, t)
    ensures t in s.k && s.k[t] == Acquiring
  {
  }

  // -------------------------------------------------------------- progress

  /** The kernel has its monitor. */
  predicate HasMonitor(s: KState) {
    KERNEL_SEM_CV in s.cc.ring && KERNEL_MUTEX in s.cc.mutex
  }

  /** What a thread in user space, on its way in, or in the kernel may do next. */
  lemma ThreadsMoveIn(s: KState, t: Tid)
    requires KReachable(s) && HasMonitor(s) && t in s.k
    ensures t in s.cc.thr
    ensures s.k[t] == Outside && s.cc.thr[t].pc == Client ==> KEnabled(s, KLock(t))
    ensures s.k[t] == Acquiring && s.cc.thr[t].pc == Client && HasKernelMutex(s, t) ==> KEnabled(s, KCheck(t))
    ensures s.k[t] == Acquiring && s.cc.thr[t].pc == Client ==> (KEnabled(s, KMutex(t)) <==> s.cc.mutex[KERNEL_MUTEX] == None)
    ensures s.k[t] == Got ==> KEnabled(s, KEnter(t))
  {
    hide NoneStranded, Inv;
    KReachableInv(s);
    assert KThreadOk(s, t);
    LockHolder(s.cc, KERNEL_SEM_CV);
  }

  lemma AfterMoves(s: KState, t: Tid, after: After)
    requires t in s.k && s.k[t].Dropped? && t in s.cc.thr && KThreadOk(s, t)
    requires after.ToWait? ==> after.cv in s.cc.ring && after.cv in s.cc.wlock
    ensures s.k[t] == Dropped(after, Over) ==> KEnabled(s, KAfter(t))
  {
  }

  /** And one that has called kernel_unlock, kernel_wait or kernel_sleep. */
  lemma ThreadsMoveOut(s: KState, t: Tid, after: After)
    requires KReachable(s) && HasMonitor(s) && t in s.k
    requires after.ToWait? ==> after.cv in s.cc.ring && after.cv != KERNEL_SEM_CV
    ensures t in s.cc.thr
    ensures s.k[t] == Inside && s.cc.thr[t].pc == Client ==> KEnabled(s, KLeave(t, after))
    ensures s.k[t] == Dropping(after) ==>
              if HasKernelMutex(s, t) then KEnabled(s, KDrop(t)) else KEnabled(s, KMutex(t)) <==> s.cc.mutex[KERNEL_MUTEX] == None
    ensures s.k[t] == Dropped(after, SignalCall.Before) ==> KEnabled(s, KSignal(t))
    ensures s.k[t] == Dropped(after, Over) ==> KEnabled(s, KAfter(t))
  {
    hide NoneStranded, Inv;
    KReachableInv(s);
    assert KThreadOk(s, t);
    LockHolder(s.cc, KERNEL_SEM_CV);
    if after.ToWait? { LockHolder(s.cc, after.cv); }
    hide KInv, KReachable;
    match s.k[t]
    case Inside =>
    case Dropping(_) =>
    case Dropped(_, call) =>
      if call == Over { AfterMoves(s, t, after); }
    case _ =>
  }
}
