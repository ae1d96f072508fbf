// The kernel semaphore (kernel_cc.c, kernel_sys.c): kernel_lock, kernel_unlock, kernel_wait and
// kernel_sleep as a monitor built from kernel_mutex and kernel_sem_cv, on top of the condition
// variable steps of `CondVars`.  Threads may use other mutexes and condition variables meanwhile.

module KernelSem {
  import opened Lists
  import opened CondVars

  const KERNEL_MUTEX: Mx := 0
  const KERNEL_SEM_CV: Cv := 0

  // What follows the release of the semaphore.
  datatype After = ToUser | ToWait(cv: Cv) | ToExit

  datatype SignalCall = Before | During | Over

  // Where a thread stands with respect to the kernel lock.
  datatype KPc =
    | Outside
    | Acquiring                                  // in the loop: while(kernel_sem<=0) Cond_Wait(...)
    | Got                                        // kernel_sem decremented, kernel_mutex still locked
    | Inside                                     // runs in the kernel
    | Dropping(after: After)                     // about to lock kernel_mutex and increment kernel_sem
    | Dropped(after: After, call: SignalCall)    // incremented; Cond_Signal(&kernel_sem_cv)
    | Gone

  /** `holder` is a history variable: the thread that has the kernel. */
  datatype KState = KState(cc: State, sem: int, k: map<Tid, KPc>, holder: Option<Tid>)

  datatype KAction =
    | KLock(t: Tid)               // kernel_lock is called
    | KMutex(t: Tid)              // Mutex_Lock(&kernel_mutex)
    | KCheck(t: Tid)              // the loop test, and Cond_Wait or the decrement
    | KEnter(t: Tid)              // Mutex_Unlock at the end of kernel_lock
    | KLeave(t: Tid, after: After)  // kernel_unlock, kernel_wait or kernel_sleep is called
    | KDrop(t: Tid)               // kernel_sem++
    | KSignal(t: Tid)             // Cond_Signal(&kernel_sem_cv) is called
    | KAfter(t: Tid)              // what comes after it
    | Inner(a: Action)            // a step of a condition variable call, or a wakeup from elsewhere
    | Foreign(a: Action)          // other mutexes and condition variables

  predicate IsForeign(a: Action) {
    match a
    case CallWait(_, m, cv) => m != KERNEL_MUTEX && cv != KERNEL_SEM_CV
    case CallSignal(_, cv, _) => cv != KERNEL_SEM_CV
    case Lock(_, m) => m != KERNEL_MUTEX
    case Unlock(_, m) => m != KERNEL_MUTEX
    case _ => false
  }

  predicate HasKernelMutex(s: KState, t: Tid) {
    KERNEL_MUTEX in s.cc.mutex && s.cc.mutex[KERNEL_MUTEX] == Some(t)
  }

  function AfterAction(t: Tid, after: After): Action {
    match after
    case ToUser => Unlock(t, KERNEL_MUTEX)
    case ToWait(cv) => CallWait(t, KERNEL_MUTEX, cv)
    case ToExit => ExitReleasing(t, KERNEL_MUTEX)
  }

  predicate KEnabled(s: KState, a: KAction) {
    match a
    case KLock(t) => t in s.k && s.k[t] == Outside && t in s.cc.thr && s.cc.thr[t].pc.Client?
    case KMutex(t) => t in s.k && (s.k[t].Acquiring? || s.k[t].Dropping?) && Enabled(s.cc, Lock(t, KERNEL_MUTEX))
    case KCheck(t) => t in s.k && s.k[t].Acquiring? && Enabled(s.cc, CallWait(t, KERNEL_MUTEX, KERNEL_SEM_CV))
    case KEnter(t) => t in s.k && s.k[t].Got? && Enabled(s.cc, Unlock(t, KERNEL_MUTEX))
    case KLeave(t, after) => t in s.k && s.k[t].Inside? && t in s.cc.thr && s.cc.thr[t].pc.Client? && after != ToWait(KERNEL_SEM_CV)
    case KDrop(t) => t in s.k && s.k[t].Dropping? && HasKernelMutex(s, t)
    case KSignal(t) => t in s.k && s.k[t].Dropped? && s.k[t].call == Before && Enabled(s.cc, CallSignal(t, KERNEL_SEM_CV, false))
    case KAfter(t) => t in s.k && s.k[t].Dropped? && s.k[t].call == Over && Enabled(s.cc, AfterAction(t, s.k[t].after))
    case Inner(a) => (a.DoWait? || a.DoSignal? || a.OtherWakeup?) && a.t in s.k && Enabled(s.cc, a)
    case Foreign(a) => IsForeign(a) && a.t in s.k && (s.k[a.t].Outside? || s.k[a.t].Inside?) && Enabled(s.cc, a)
  }

  /** Once the semaphore's Cond_Signal has returned, the thread goes on to what comes after it. */
  function Returned(k: KPc, pc: Pc): KPc {
    if k.Dropped? && k.call == During && pc.Client? then Dropped(k.after, Over) else k
  }

  function KApply(s: KState, a: KAction): KState
    requires KEnabled(s, a)
  {
    match a
    case KLock(t) => s.(k := s.k[t := Acquiring])
    case KMutex(t) => s.(cc := Apply(s.cc, Lock(t, KERNEL_MUTEX)))
    case KCheck(t) =>
      if s.sem <= 0 then s.(cc := Apply(s.cc, CallWait(t, KERNEL_MUTEX, KERNEL_SEM_CV)))
      else s.(sem := s.sem - 1, k := s.k[t := Got], holder := Some(t))
    case KEnter(t) => s.(cc := Apply(s.cc, Unlock(t, KERNEL_MUTEX)), k := s.k[t := Inside])
    case KLeave(t, after) => s.(k := s.k[t := Dropping(after)])
    case KDrop(t) => s.(sem := s.sem + 1, k := s.k[t := Dropped(s.k[t].after, Before)], holder := None)
    case KSignal(t) =>
      s.(cc := Apply(s.cc, CallSignal(t, KERNEL_SEM_CV, false)), k := s.k[t := Dropped(s.k[t].after, During)])
    case KAfter(t) =>
      var after := s.k[t].after;
      s.(cc := Apply(s.cc, AfterAction(t, after)),
         k := s.k[t := match after case ToUser => Outside case ToWait(_) => Acquiring case ToExit => Gone])
    case Inner(a) =>
      var cc := Apply(s.cc, a);
      s.(cc := cc, k := if a.t in cc.thr then s.k[a.t := Returned(s.k[a.t], cc.thr[a.t].pc)] else s.k)
    case Foreign(a) => s.(cc := Apply(s.cc, a))
  }

  // ---------------------------------------------------------- the invariant

  /** A thread with nothing to do with the semaphore's monitor. */
  predicate Elsewhere(pc: Pc) {
    match pc
    case Client => true
    case InWait(m, cv, _) => m != KERNEL_MUTEX && cv != KERNEL_SEM_CV
    case InSignal(cv, _, _, _) => cv != KERNEL_SEM_CV
    case Exited => false
  }

  predicate BeforeUnlock(at: WaitAt) {
    at == Entering || at == Pushing || at == Unlocking
  }

  predicate KThreadOk(s: KState, t: Tid)
    requires t in s.k && t in s.cc.thr
  {
    var pc := s.cc.thr[t].pc;
    && (s.k[t].Got? || s.k[t].Inside? || s.k[t].Dropping? <==> s.holder == Some(t))
    && match s.k[t]
       case Outside => Elsewhere(pc) && !HasKernelMutex(s, t)
       case Inside => Elsewhere(pc) && !HasKernelMutex(s, t)
       case Acquiring =>
         || pc.Client?
         || (pc.InWait? && pc.m == KERNEL_MUTEX && (HasKernelMutex(s, t) <==> BeforeUnlock(pc.wait))
             && (pc.wcv == KERNEL_SEM_CV && BeforeUnlock(pc.wait) ==> s.sem <= 0)
             && (pc.wcv != KERNEL_SEM_CV && BeforeUnlock(pc.wait) ==> s.holder.None?))
       case Got => pc.Client? && HasKernelMutex(s, t)
       case Dropping(after) => pc.Client? && after != ToWait(KERNEL_SEM_CV)
       case Dropped(after, call) =>
         && HasKernelMutex(s, t) && s.holder.None? && after != ToWait(KERNEL_SEM_CV)
         && (if call == During then pc.InSignal? && pc.scv == KERNEL_SEM_CV && !pc.all else pc.Client?)
       case Gone => pc.Exited?
  }

  /** A thread off the semaphore's ring for good that will look at kernel_sem again. */
  predicate WillRecheck(s: KState, t: Tid) {
    && t in s.k && s.k[t].Acquiring? && t in s.cc.thr
    && var x := s.cc.thr[t];
    || (x.pc.InWait? && x.pc.m == KERNEL_MUTEX && x.pc.wcv == KERNEL_SEM_CV && x.removed && !x.stopped)
    || (x.pc.Client? && HasKernelMutex(s, t))
  }

  /** Between kernel_sem++ and the end of the Cond_Signal that follows it. */
  predicate StillSignalling(s: KState, t: Tid) {
    t in s.k && s.k[t].Dropped? && s.k[t].call != Over
  }

  /** No waiter of the semaphore is stranded while it is free. */
  ghost predicate NoneStranded(s: KState) {
    s.sem >= 1 && KERNEL_SEM_CV in s.cc.ring && s.cc.ring[KERNEL_SEM_CV] != [] ==>
      exists t :: WillRecheck(s, t) || StillSignalling(s, t)
  }

  ghost predicate KInv(s: KState) {
    && Inv(s.cc)
    && (forall t :: t in s.k <==> t in s.cc.thr)
    && (forall t | t in s.k :: KThreadOk(s, t))
    && s.sem == (if s.holder == None then 1 else 0)
    && (s.holder.Some? ==> s.holder.value in s.k)
    && NoneStranded(s)
  }

  // ------------------------------------------------------ every step keeps it

  /** Another thread u stays where it is; u may be woken and taken off its ring by the step. */
  ghost predicate Untouched(s: State, s': State, u: Tid)
    requires u in s.thr
  {
    u in s'.thr && s'.thr[u].pc == s.thr[u].pc && (s.thr[u].removed ==> s'.thr[u].removed) && (!s.thr[u].stopped ==> !s'.thr[u].stopped)
  }

  /** Only t's own mutexes change hands. */
  ghost predicate OwnMutexes(s: State, s': State, t: Tid) {
    && (forall m :: m in s'.mutex <==> m in s.mutex)
    && (forall m | m in s.mutex && s'.mutex[m] != s.mutex[m] ::
          (s.mutex[m] == None && s'.mutex[m] == Some(t)) || (s.mutex[m] == Some(t) && s'.mutex[m] == None))
  }

  ghost predicate MovesOnly(s: State, s': State, t: Tid) {
    && (forall v :: v in s'.thr <==> v in s.thr)
    && (forall u | u in s.thr && u != t :: Untouched(s, s', u))
    && OwnMutexes(s, s', t)
  }

  lemma WaitMovesOne(s: State, t: Tid)
    requires CanWaitStep(s, t) && PlaceOk(s, t)
    ensures MovesOnly(s, WaitStep(s, t), t)
  {
  }

  lemma SignalMovesOne(s: State, t: Tid)
    requires CanSignalStep(s, t) && Target(s, t) in s.thr
    ensures MovesOnly(s, SignalStep(s, t), t)
  {
  }

  /** A condition variable step moves no other thread, and only its own mutexes. */
  lemma StepMovesOne(s: State, a: Action)
    requires Inv(s) && Enabled(s, a)
    ensures MovesOnly(s, Apply(s, a), a.t)
  {
    hide WaiterOk, SignallerOk, CvOk, PlaceOk, WaitStep, SignalStep, MovesOnly;
    if a.DoWait? {
      assert PlaceOk(s, a.t);
      hide Inv;
      WaitMovesOne(s, a.t);
    } else if a.DoSignal? {
      TargetOk(s, a.t);
      hide Inv;
      SignalMovesOne(s, a.t);
    } else {
      hide Inv;
      OtherMovesOne(s, a);
    }
  }

  lemma OtherMovesOne(s: State, a: Action)
    requires Enabled(s, a) && !a.DoWait? && !a.DoSignal?
    ensures MovesOnly(s, Apply(s, a), a.t)
  {
  }

  function Actor(a: KAction): Tid {
    match a
    case Inner(b) => b.t
    case Foreign(b) => b.t
    case _ => a.t
  }

  /** Nobody but the acting thread changes its standing or its hold on kernel_mutex. */
  ghost predicate KFrame(s: KState, s': KState, t: Tid) {
    && t in s.k && t in s.cc.thr
    && (forall u :: u in s'.k <==> u in s.k)
    && (forall u :: u in s'.cc.thr <==> u in s.cc.thr)
    && (forall u | u in s.k && u != t :: s'.k[u] == s.k[u])
    && (forall u | u in s.cc.thr && u != t ::
          && s'.cc.thr[u].pc == s.cc.thr[u].pc
          && (s.cc.thr[u].removed ==> s'.cc.thr[u].removed)
          && (!s.cc.thr[u].stopped ==> !s'.cc.thr[u].stopped))
    && (KERNEL_MUTEX in s'.cc.mutex <==> KERNEL_MUTEX in s.cc.mutex)
    && (forall u | u != t :: HasKernelMutex(s', u) <==> HasKernelMutex(s, u))
  }

  /** The condition variable step a kernel-lock step is made of, if any. */
  function InnerOf(s: KState, a: KAction): Option<Action>
    requires KEnabled(s, a)
  {
    match a
    case KMutex(t) => Some(Lock(t, KERNEL_MUTEX))
    case KCheck(t) => if s.sem <= 0 then Some(CallWait(t, KERNEL_MUTEX, KERNEL_SEM_CV)) else None
    case KEnter(t) => Some(Unlock(t, KERNEL_MUTEX))
    case KSignal(t) => Some(CallSignal(t, KERNEL_SEM_CV, false))
    case KAfter(t) => Some(AfterAction(t, s.k[t].after))
    case Inner(b) => Some(b)
    case Foreign(b) => Some(b)
    case _ => None
  }

  lemma InnerStep(s: KState, a: KAction)
    requires KEnabled(s, a)
    ensures var b, s' := InnerOf(s, a), KApply(s, a);
            if b == None then s'.cc == s.cc else Enabled(s.cc, b.value) && b.value.t == Actor(a) && s'.cc == Apply(s.cc, b.value)
  {
    hide Enabled, Apply;
  }

  lemma KFrameHolds(s: KState, a: KAction)
    requires KInv(s) && KEnabled(s, a)
    ensures KFrame(s, KApply(s, a), Actor(a)) && Inv(KApply(s, a).cc)
  {
    hide Inv, Enabled, Apply, KThreadOk, NoneStranded;
    InnerStep(s, a);
    var b := InnerOf(s, a);
    assert Actor(a) in s.k;
    if b.Some? {
      StepKeepsInv(s.cc, b.value);
      StepMovesOne(s.cc, b.value);
      MovesFrame(s, KApply(s, a), Actor(a));
    }
  }

  lemma MovesFrame(s: KState, s': KState, t: Tid)
    requires MovesOnly(s.cc, s'.cc, t) && t in s.k && t in s.cc.thr && (forall u :: u in s'.k <==> u in s.k)
    requires forall u | u in s.k && u != t :: s'.k[u] == s.k[u]
    ensures KFrame(s, s', t)
  {
    forall u | u in s.cc.thr && u != t
      ensures s'.cc.thr[u].pc == s.cc.thr[u].pc
          && (s.cc.thr[u].removed ==> s'.cc.thr[u].removed)
          && (!s.cc.thr[u].stopped ==> !s'.cc.thr[u].stopped)
    {
      assert Untouched(s.cc, s'.cc, u);
    }
  }

  lemma CheckerHasMutex(s: KState, t: Tid)
    requires KEnabled(s, KCheck(t))
    ensures HasKernelMutex(s, t)
  {
  }

  lemma KOther(s: KState, a: KAction, u: Tid)
    requires KInv(s) && KEnabled(s, a) && u in s.k && u != Actor(a)
    ensures var s' := KApply(s, a); u in s'.k && u in s'.cc.thr && KThreadOk(s', u)
  {
    hide Inv, Enabled, Apply, NoneStranded;
    KFrameHolds(s, a);
    if a.KCheck? { CheckerHasMutex(s, a.t); }
    assert KThreadOk(s, u) && KThreadOk(s, Actor(a));
  }

  lemma KSelf(s: KState, a: KAction)
    requires KInv(s) && KEnabled(s, a)
    ensures var t, s' := Actor(a), KApply(s, a); t in s'.k && t in s'.cc.thr && KThreadOk(s', t)
  {
    hide Inv, NoneStranded, Enabled, Apply, KThreadOk;
    KFrameHolds(s, a);
    assert KThreadOk(s, Actor(a));
    hide KInv;
    match a
    case Inner(b) => KSelfInner(s, b);
    case Foreign(b) => KSelfForeign(s, b);
    case _ => KSelfOwn(s, a);
  }

  lemma KSelfInner(s: KState, b: Action)
    requires KEnabled(s, Inner(b)) && b.t in s.k && b.t in s.cc.thr && KThreadOk(s, b.t)
    ensures var s' := KApply(s, Inner(b)); b.t in s'.k && b.t in s'.cc.thr && KThreadOk(s', b.t)
  {
    hide WaitStep, SignalStep;
    if b.DoWait? {
      KSelfWait(s, b.t);
    } else if b.DoSignal? {
      KSelfSignal(s, b.t);
    }
  }

  lemma KSelfWait(s: KState, t: Tid)
    requires CanWaitStep(s.cc, t) && t in s.k && KThreadOk(s, t)
    ensures var s' := KApply(s, Inner(DoWait(t))); t in s'.k && t in s'.cc.thr && KThreadOk(s', t)
  {
    match s.cc.thr[t].pc.wait
    case Entering =>
    case Pushing =>
    case Unlocking =>
    case Stopping =>
    case Asleep =>
    case Tidying =>
    case Leaving =>
    case Relocking =>
  }

  lemma KSelfSignal(s: KState, t: Tid)
    requires CanSignalStep(s.cc, t) && t in s.k && KThreadOk(s, t)
    ensures var s' := KApply(s, Inner(DoSignal(t))); t in s'.k && t in s'.cc.thr && KThreadOk(s', t)
  {
  }

  lemma KSelfForeign(s: KState, b: Action)
    requires KEnabled(s, Foreign(b)) && b.t in s.k && b.t in s.cc.thr && KThreadOk(s, b.t)
    ensures var s' := KApply(s, Foreign(b)); b.t in s'.k && b.t in s'.cc.thr && KThreadOk(s', b.t)
  {
  }

  lemma KSelfOwn(s: KState, a: KAction)
    requires KEnabled(s, a) && !a.Inner? && !a.Foreign? && a.t in s.k && a.t in s.cc.thr && KThreadOk(s, a.t)
    requires s.sem == (if s.holder == None then 1 else 0)
    ensures var s' := KApply(s, a); a.t in s'.k && a.t in s'.cc.thr && KThreadOk(s', a.t)
  {
  }

  // ---- nobody is stranded

  /** The witness that nobody is stranded stays one, unless it acts. */
  lemma WitnessKept(s: KState, a: KAction, v: Tid)
    requires KInv(s) && KEnabled(s, a) && v != Actor(a) && (WillRecheck(s, v) || StillSignalling(s, v))
    ensures WillRecheck(KApply(s, a), v) || StillSignalling(KApply(s, a), v)
  {
    hide Inv, Enabled, Apply, NoneStranded, KThreadOk;
    KFrameHolds(s, a);
  }

  /** A thread on its way to recheck stays on it until it has looked. */
  lemma RecheckerActs(s: KState, a: KAction)
    requires KInv(s) && KEnabled(s, a) && WillRecheck(s, Actor(a)) && !a.KCheck?
    ensures WillRecheck(KApply(s, a), Actor(a))
  {
    hide Inv, NoneStranded;
    assert KThreadOk(s, Actor(a));
    if s.cc.thr[Actor(a)].pc.InWait? {
      WaiterStage(s, Actor(a));
    }
  }

  lemma WaiterStage(s: KState, t: Tid)
    requires KInv(s) && t in s.k && t in s.cc.thr && s.cc.thr[t].pc.InWait? && s.cc.thr[t].removed
    ensures var at := s.cc.thr[t].pc.wait; at == Asleep || at == Tidying || at == Leaving || at == Relocking
  {
    assert WaiterOk(s.cc, t);
  }

  /** When the semaphore's Cond_Signal returns, it has woken a waiter that will recheck, or there is none. */
  lemma SignallerActs(s: KState, a: KAction)
    requires KInv(s) && KEnabled(s, a) && StillSignalling(s, Actor(a)) && KERNEL_SEM_CV in s.cc.ring
    ensures var s' := KApply(s, a);
            || StillSignalling(s', Actor(a))
            || (KERNEL_SEM_CV in s'.cc.ring && s'.cc.ring[KERNEL_SEM_CV] == [])
            || (exists w :: WillRecheck(s', w))
  {
    hide Inv, NoneStranded, Enabled, Apply, KThreadOk, WillRecheck;
    var t, s' := Actor(a), KApply(s, a);
    if !StillSignalling(s', t) {
      SignallerStays(s, a);
      SignalsInOrder(s.cc, t);
      var woke := s.cc.thr[t].pc.sig.woke;
      if woke.Some? {
        WokenWillRecheck(s, t, woke.value);
        WitnessKept(s, a, woke.value);
      } else {
        RingKept(s, a);
      }
    }
  }

  /** The semaphore's signaller is done only when its Cond_Signal is about to return. */
  lemma SignallerStays(s: KState, a: KAction)
    requires KInv(s) && KEnabled(s, a) && StillSignalling(s, Actor(a)) && !StillSignalling(KApply(s, a), Actor(a))
    ensures var t := Actor(a);
            && a == Inner(DoSignal(t)) && t in s.cc.thr && s.cc.thr[t].pc.InSignal? && s.cc.thr[t].pc.sig.Closing?
            && !s.cc.thr[t].pc.all && s.cc.thr[t].pc.scv == KERNEL_SEM_CV
  {
    hide Inv, NoneStranded, Apply, Enabled;
    assert KThreadOk(s, Actor(a));
    hide KInv, KThreadOk;
    if a.Inner? && a.a.DoSignal? && !s.cc.thr[a.a.t].pc.sig.Closing? {
      StillInSignal(s.cc, a.a);
    } else if a.Inner? && !a.a.DoSignal? {
      StillInSignal(s.cc, a.a);
    }
  }

  /** A thread in Cond_Signal leaves it only by the last step. */
  lemma StillInSignal(s: State, b: Action)
    requires Enabled(s, b) && b.t in s.thr && s.thr[b.t].pc.InSignal?
    requires b.DoWait? || b.OtherWakeup? || (b.DoSignal? && !s.thr[b.t].pc.sig.Closing?)
    ensures b.t in Apply(s, b).thr && Apply(s, b).thr[b.t].pc.InSignal?
  {
    hide WaitStep, SignalStep;
    if b.DoSignal? { SignalGoesOn(s, b.t); }
  }

  lemma SignalGoesOn(s: State, t: Tid)
    requires CanSignalStep(s, t) && !s.thr[t].pc.sig.Closing?
    ensures t in SignalStep(s, t).thr && SignalStep(s, t).thr[t].pc.InSignal?
  {
    match s.thr[t].pc.sig
    case Knocking =>
    case Looking =>
    case Waking(w) =>
    case Marking(w) =>
  }

  lemma RingKept(s: KState, a: KAction)
    requires KEnabled(s, a) && a.Inner? && a.a.DoSignal? && s.cc.thr[a.a.t].pc.sig.Closing?
    ensures KApply(s, a).cc.ring == s.cc.ring
  {
  }

  lemma WokenWillRecheck(s: KState, t: Tid, w: Tid)
    requires KInv(s) && t in s.k && t in s.cc.thr && s.cc.thr[t].pc.InSignal? && Done(s.cc, KERNEL_SEM_CV, w)
    ensures w != t && WillRecheck(s, w) && !StillSignalling(s, w)
  {
    hide Inv, NoneStranded;
    assert KThreadOk(s, w);
  }

  /** Only a thread that has seen kernel_sem taken joins the semaphore's ring. */
  lemma JoinsOnlyWhenTaken(s: KState, a: KAction)
    requires KInv(s) && KEnabled(s, a) && KERNEL_SEM_CV in s.cc.ring && s.cc.ring[KERNEL_SEM_CV] == [] && s.sem > 0
    ensures KERNEL_SEM_CV in KApply(s, a).cc.ring && KApply(s, a).cc.ring[KERNEL_SEM_CV] == []
  {
    hide Inv, NoneStranded;
    assert KThreadOk(s, Actor(a));
  }

  lemma RingsStay(s: KState, a: KAction)
    requires KInv(s) && KEnabled(s, a)
    ensures KERNEL_SEM_CV in KApply(s, a).cc.ring ==> KERNEL_SEM_CV in s.cc.ring
  {
    hide Inv, NoneStranded, KThreadOk;
  }

  lemma StrandedKept(s: KState, a: KAction)
    requires KInv(s) && KEnabled(s, a)
    ensures NoneStranded(KApply(s, a))
  {
    hide Inv, KThreadOk, Enabled, Apply;
    var s', t := KApply(s, a), Actor(a);
    if s'.sem >= 1 && KERNEL_SEM_CV in s'.cc.ring && s'.cc.ring[KERNEL_SEM_CV] != [] {
      RingsStay(s, a);
      if a.KDrop? {
        assert StillSignalling(s', t);
      } else {
        assert s.sem >= 1 && !a.KCheck?;
        if s.cc.ring[KERNEL_SEM_CV] == [] {
          JoinsOnlyWhenTaken(s, a);
        }
        var v :| WillRecheck(s, v) || StillSignalling(s, v);
        if v != t {
          WitnessKept(s, a, v);
        } else if WillRecheck(s, v) {
          RecheckerActs(s, a);
        } else {
          SignallerActs(s, a);
        }
      }
    }
  }

  lemma KStepKeepsInv(s: KState, a: KAction)
    requires KInv(s) && KEnabled(s, a)
    ensures KInv(KApply(s, a))
  {
    hide Inv, Enabled, Apply, NoneStranded;
    KFrameHolds(s, a);
    StrandedKept(s, a);
    var s' := KApply(s, a);
    assert KThreadOk(s, Actor(a));
    hide KThreadOk;
    forall u | u in s'.k ensures KThreadOk(s', u) {
      if u == Actor(a) {
        KSelf(s, a);
      } else {
        KOther(s, a, u);
      }
    }
  }

  /** At boot nobody is in the kernel and kernel_sem is 1. */
  ghost predicate KInitial(s: KState) {
    && Initial(s.cc) && (forall t :: t in s.k <==> t in s.cc.thr)
    && (forall t | t in s.k :: s.k[t] == Outside) && s.sem == 1 && s.holder == None
  }

  ghost predicate KIsRun(run: seq<KState>, acts: seq<KAction>) {
    && |run| == |acts| + 1
    && (forall i | 0 <= i < |acts| :: KEnabled(run[i], acts[i]) && run[i + 1] == KApply(run[i], acts[i]))
  }

  lemma {:induction false} KRunKeepsInv(run: seq<KState>, acts: seq<KAction>, k: nat)
    requires KIsRun(run, acts) && KInitial(run[0]) && k < |run|
    ensures KInv(run[k])
  {
    if k > 0 {
      KRunKeepsInv(run, acts, k - 1);
      KStepKeepsInv(run[k - 1], acts[k - 1]);
    }
  }

  ghost predicate KReachable(s: KState) {
    exists run, acts :: KIsRun(run, acts) && KInitial(run[0]) && s == run[|acts|]
  }

  lemma KReachableInv(s: KState)
    requires KReachable(s)
    ensures KInv(s)
  {
    var run, acts :| KIsRun(run, acts) && KInitial(run[0]) && s == run[|acts|];
    KRunKeepsInv(run, acts, |acts|);
  }

  // ------------------------------------------- what the invariant amounts to

  /** The threads that have the kernel. */
  function Holders(s: KState): set<Tid> {
    set t | t in s.k && (s.k[t].Got? || s.k[t].Inside? || s.k[t].Dropping?)
  }

  /** kernel_sem and the number of holders always add up to one: the kernel has at most one holder. */
  lemma OneHolder(s: KState)
    requires KInv(s)
    ensures s.sem + |Holders(s)| == 1
    ensures forall t, u | t in Holders(s) && u in Holders(s) :: t == u
  {
    hide Inv, NoneStranded;
    if s.holder == None {
      assert Holders(s) == {};
    } else {
      assert KThreadOk(s, s.holder.value);
      forall t | t in s.k ensures t in Holders(s) <==> t == s.holder.value {
        assert KThreadOk(s, t);
      }
      assert Holders(s) == {s.holder.value};
    }
  }

  /**
   * With kernel_mutex free and kernel_sem at 1, a waiter in the semaphore's ring is never alone: some
   * thread already removed from the ring is awake and on its way to look at kernel_sem again.
   */
  lemma NoStrandedWaiter(s: KState)
    requires KReachable(s) && KERNEL_MUTEX in s.cc.mutex && s.cc.mutex[KERNEL_MUTEX] == None
    requires s.sem == 1 && KERNEL_SEM_CV in s.cc.ring && s.cc.ring[KERNEL_SEM_CV] != []
    ensures exists t :: WillRecheck(s, t) && t !in s.cc.ring[KERNEL_SEM_CV]
  {
    KReachableInv(s);
    var t :| WillRecheck(s, t) || StillSignalling(s, t);
    assert t in s.k && KThreadOk(s, t);
    hide NoneStranded;
    if t in s.cc.ring[KERNEL_SEM_CV] {
      RingOnce(s.cc, t, KERNEL_SEM_CV);
    }
  }

  /** In every reachable state at most one thread has the kernel, and kernel_sem says whether one has. */
  lemma KernelHasOneHolder(s: KState, t: Tid, u: Tid)
    requires KReachable(s) && t in Holders(s) && u in Holders(s)
    ensures t == u && s.sem == 0
  {
    hide KInv;
    KReachableInv(s);
    OneHolder(s);
    assert Holders(s) == {t};
  }

  /**
   * kernel_wait gives up the kernel and joins the ring in one: as soon as another thread can have the
   * kernel, whoever waits on a condition variable is on its ring, or in the hands of a signaller about
   * to wake it, or awake.
   */
  lemma KernelWaitIsAtomic(s: KState, t: Tid)
    requires KReachable(s) && s.holder.Some? && t in s.k && t in s.cc.thr && s.k[t].Acquiring?
    requires s.cc.thr[t].pc.InWait? && s.cc.thr[t].pc.wcv != KERNEL_SEM_CV
    ensures var x, cv := s.cc.thr[t], s.cc.thr[t].pc.wcv;
            && cv in s.cc.ring
            && (t in s.cc.ring[cv] || SignallerAt(s.cc, cv, Waking(t)) || (!x.stopped && x.cause != NotWoken))
  {
    hide Inv, NoneStranded;
    KReachableInv(s);
    assert KThreadOk(s, t) && Inv(s.cc);
    assert !BeforeUnlock(s.cc.thr[t].pc.wait);
    OnRingOrWoken(s.cc, t);
  }

  lemma OnRingOrWoken(s: State, t: Tid)
    requires Inv(s) && t in s.thr && s.thr[t].pc.InWait? && !BeforeUnlock(s.thr[t].pc.wait)
    ensures var x, cv := s.thr[t], s.thr[t].pc.wcv;
            && cv in s.ring
            && (t in s.ring[cv] || SignallerAt(s, cv, Waking(t)) || (!x.stopped && x.cause != NotWoken))
  {
    hide SignallerOk, CvOk;
    assert PlaceOk(s, t) && WaiterOk(s, t);
  }
}
